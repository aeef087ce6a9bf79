/** The next state does not depend on how different players' submissions were interleaved in the queue. */
module OrderIndependence {
  import opened Collections
  import opened Ordering
  import opened Domain
  import opened Phases
  import opened BuildFacts
  import opened Validation
  import opened ValidationFacts
  import opened Submissions

  // ---- whose order is it ----

  function MovedBy(s: Snapshot): PlayerId -> MovementOrder -> bool {
    (p: PlayerId) => (o: MovementOrder) => FindArmy(s.armies, o.armyId).Some? && FindArmy(s.armies, o.armyId).value.owner == p
  }

  function RecruitedBy(s: Snapshot): PlayerId -> RecruitmentOrder -> bool {
    (p: PlayerId) => (o: RecruitmentOrder) => CityOwner(s.cities, o.city) == Some(p)
  }

  function UpgradedBy(s: Snapshot): PlayerId -> UpgradeOrder -> bool {
    (p: PlayerId) => (o: UpgradeOrder) => CityOwner(s.cities, o.city) == Some(p)
  }

  function SentBy(): PlayerId -> TransferOrder -> bool {
    (p: PlayerId) => (o: TransferOrder) => o.sender == Some(p)
  }

  /** One player's part of a batch. */
  function PartOf(s: Snapshot, b: OrderBatch, p: PlayerId): OrderBatch {
    OrderBatch(Filter(MovedBy(s)(p), b.movements), Filter(RecruitedBy(s)(p), b.recruitment),
      Filter(UpgradedBy(s)(p), b.upgrades), Filter(SentBy()(p), b.transfers))
  }

  ghost predicate AllIssued<T>(issuedBy: PlayerId -> T -> bool, orders: seq<T>) {
    forall o :: o in orders ==> exists p :: issuedBy(p)(o)
  }

  ghost predicate BatchIssued(s: Snapshot, b: OrderBatch) {
    AllIssued(MovedBy(s), b.movements) && AllIssued(RecruitedBy(s), b.recruitment)
    && AllIssued(UpgradedBy(s), b.upgrades) && AllIssued(SentBy(), b.transfers)
  }

  lemma PartOfJoin(s: Snapshot, a: OrderBatch, b: OrderBatch, p: PlayerId)
    ensures PartOf(s, Join(a, b), p) == Join(PartOf(s, a, p), PartOf(s, b, p))
  {
    FilterConcat(MovedBy(s)(p), a.movements, b.movements);
    FilterConcat(RecruitedBy(s)(p), a.recruitment, b.recruitment);
    FilterConcat(UpgradedBy(s)(p), a.upgrades, b.upgrades);
    FilterConcat(SentBy()(p), a.transfers, b.transfers);
  }

  lemma PartOfNothing(s: Snapshot, p: PlayerId)
    ensures PartOf(s, NO_ORDERS, p) == NO_ORDERS
  {
  }

  /** Everything accepted from an envelope was issued by its sender. */
  ghost predicate OwnBatch(s: Snapshot, b: OrderBatch, p: PlayerId) {
    && (forall o :: o in b.movements ==> MovedBy(s)(p)(o))
    && (forall o :: o in b.recruitment ==> RecruitedBy(s)(p)(o))
    && (forall o :: o in b.upgrades ==> UpgradedBy(s)(p)(o))
    && (forall o :: o in b.transfers ==> SentBy()(p)(o))
  }

  lemma AcceptedIsOwn(s: Snapshot, m: MapDefinition, e: OrderEnvelope)
    ensures OwnBatch(s, Validated(s, m, e).accepted, e.playerId)
  {
    var p := e.playerId;
    if e.tick == s.tick && p in s.players {
      var start := s.players[p].resources;
      var recruitment := RecruitmentPass(s, p, start, e.orders.recruitment);
      var upgrade := UpgradePass(s, p, recruitment.budget, e.orders.upgrades);
      MovementsSplit(s, m, p, start, e.orders.movements);
      RecruitmentAccepted(s, p, start, e.orders.recruitment);
      UpgradesAccepted(s, p, recruitment.budget, e.orders.upgrades);
      TransfersAccepted(s, m, p, upgrade.budget, e.orders.transfers);
    }
  }

  lemma PartOfOwn(s: Snapshot, b: OrderBatch, p: PlayerId, q: PlayerId)
    requires OwnBatch(s, b, p)
    ensures PartOf(s, b, q) == if q == p then b else NO_ORDERS
  {
    if q == p {
      FilterAll(MovedBy(s)(p), b.movements);
      FilterAll(RecruitedBy(s)(p), b.recruitment);
      FilterAll(UpgradedBy(s)(p), b.upgrades);
      FilterAll(SentBy()(p), b.transfers);
    } else {
      FilterNone(MovedBy(s)(q), b.movements);
      FilterNone(RecruitedBy(s)(q), b.recruitment);
      FilterNone(UpgradedBy(s)(q), b.upgrades);
      FilterNone(SentBy()(q), b.transfers);
    }
  }

  lemma AcceptedForIsOwn(s: Snapshot, m: MapDefinition, queue: seq<OrderEnvelope>, p: PlayerId)
    ensures OwnBatch(s, AcceptedFor(s, m, queue, p), p)
  {
    match CombinedFor(queue, p)
    case None =>
    case Some(e) =>
      FilterMember(From(p), queue, Filter(From(p), queue)[0]);
      AcceptedIsOwn(s, m, e);
  }

  lemma {:induction false} PartOfJoined(s: Snapshot, m: MapDefinition, queue: seq<OrderEnvelope>, players: seq<PlayerId>, p: PlayerId)
    requires Distinct(players)
    ensures PartOf(s, JoinedAccepted(s, m, queue, players), p) == if p in players then AcceptedFor(s, m, queue, p) else NO_ORDERS
  {
    if players == [] {
      PartOfNothing(s, p);
    } else {
      var init, last := players[..|players| - 1], players[|players| - 1];
      PartOfJoined(s, m, queue, init, p);
      PartOfJoin(s, JoinedAccepted(s, m, queue, init), AcceptedFor(s, m, queue, last), p);
      AcceptedForIsOwn(s, m, queue, last);
      PartOfOwn(s, AcceptedFor(s, m, queue, last), last, p);
      JoinUnit(PartOf(s, JoinedAccepted(s, m, queue, init), p));
      JoinUnit(AcceptedFor(s, m, queue, p));
    }
  }

  /** Each player's part of the resolved batch is what validation accepted of that player's submissions. */
  lemma PartOfQueued(s: Snapshot, m: MapDefinition, queue: seq<OrderEnvelope>, p: PlayerId)
    ensures PartOf(s, QueuedBatch(s, m, queue), p) == AcceptedFor(s, m, queue, p)
  {
    SubmittersAre(queue);
    PartOfJoined(s, m, queue, Submitters(queue), p);
  }

  lemma IssuedJoin(s: Snapshot, a: OrderBatch, b: OrderBatch)
    requires BatchIssued(s, a) && BatchIssued(s, b)
    ensures BatchIssued(s, Join(a, b))
  {
  }

  lemma OwnIsIssued(s: Snapshot, b: OrderBatch, p: PlayerId)
    requires OwnBatch(s, b, p)
    ensures BatchIssued(s, b)
  {
  }

  lemma {:induction false} JoinedIssued(s: Snapshot, m: MapDefinition, queue: seq<OrderEnvelope>, players: seq<PlayerId>)
    ensures BatchIssued(s, JoinedAccepted(s, m, queue, players))
  {
    if players != [] {
      var init, last := players[..|players| - 1], players[|players| - 1];
      JoinedIssued(s, m, queue, init);
      AcceptedForIsOwn(s, m, queue, last);
      OwnIsIssued(s, AcceptedFor(s, m, queue, last), last);
      IssuedJoin(s, JoinedAccepted(s, m, queue, init), AcceptedFor(s, m, queue, last));
    }
  }

  /** Validated recruitment is for owned cities only, so it can always be sorted. */
  lemma QueuedSortable(s: Snapshot, m: MapDefinition, queue: seq<OrderEnvelope>)
    ensures RecruitSortable(s.cities, QueuedBatch(s, m, queue).recruitment)
  {
    JoinedIssued(s, m, queue, Submitters(queue));
    forall o | o in QueuedBatch(s, m, queue).recruitment ensures HasOwner(s.cities)(o) {
      var p :| RecruitedBy(s)(p)(o);
    }
  }

  /** So nothing but income can fail the tick of a validated batch. */
  lemma OnlyIncomeFails(s: Snapshot, m: MapDefinition, queue: seq<OrderEnvelope>)
    ensures TickFailure(s, QueuedBatch(s, m, queue)) == None <==> IncomeStorable(s)
  {
    QueuedSortable(s, m, queue);
  }

  // ---- batches with equal parts ----

  ghost predicate SameParts(s: Snapshot, a: OrderBatch, b: OrderBatch) {
    BatchIssued(s, a) && BatchIssued(s, b) && forall p :: PartOf(s, a, p) == PartOf(s, b, p)
  }

  ghost predicate SameOrders<T>(issuedBy: PlayerId -> T -> bool, xs: seq<T>, ys: seq<T>) {
    AllIssued(issuedBy, xs) && AllIssued(issuedBy, ys) && forall p :: Filter(issuedBy(p), xs) == Filter(issuedBy(p), ys)
  }

  lemma SamePartsByKind(s: Snapshot, a: OrderBatch, b: OrderBatch)
    requires SameParts(s, a, b)
    ensures SameOrders(MovedBy(s), a.movements, b.movements) && SameOrders(RecruitedBy(s), a.recruitment, b.recruitment)
    ensures SameOrders(UpgradedBy(s), a.upgrades, b.upgrades) && SameOrders(SentBy(), a.transfers, b.transfers)
  {
    forall p
      ensures Filter(MovedBy(s)(p), a.movements) == Filter(MovedBy(s)(p), b.movements)
      ensures Filter(RecruitedBy(s)(p), a.recruitment) == Filter(RecruitedBy(s)(p), b.recruitment)
      ensures Filter(UpgradedBy(s)(p), a.upgrades) == Filter(UpgradedBy(s)(p), b.upgrades)
      ensures Filter(SentBy()(p), a.transfers) == Filter(SentBy()(p), b.transfers)
    {
      assert PartOf(s, a, p) == PartOf(s, b, p);
    }
  }

  lemma SameMultiset<T>(issuedBy: PlayerId -> T -> bool, xs: seq<T>, ys: seq<T>)
    requires SameOrders(issuedBy, xs, ys)
    ensures multiset(xs) == multiset(ys)
  {
    forall x ensures multiset(xs)[x] == multiset(ys)[x] {
      if x in xs || x in ys {
        var p :| issuedBy(p)(x);
        FilterMultiset(issuedBy(p), xs, x);
        FilterMultiset(issuedBy(p), ys, x);
        assert Filter(issuedBy(p), xs) == Filter(issuedBy(p), ys);
      } else {
        assert x !in multiset(xs) && x !in multiset(ys);
      }
    }
  }

  /** Orders picked out by a test that only one player's orders can pass come in the same sequence. */
  lemma SameSelection<T>(issuedBy: PlayerId -> T -> bool, keep: T -> bool, xs: seq<T>, ys: seq<T>, p: PlayerId)
    requires SameOrders(issuedBy, xs, ys)
    requires forall x :: keep(x) ==> issuedBy(p)(x)
    ensures Filter(keep, xs) == Filter(keep, ys)
  {
    FilterFilter(issuedBy(p), keep, keep, xs);
    FilterFilter(issuedBy(p), keep, keep, ys);
  }

  // ---- movement ----

  lemma {:induction false} MoveByOwnOrders(a: Army, orders: seq<MovementOrder>, m: MapDefinition)
    ensures MoveBy(a, orders, m) == MoveBy(a, Filter(Moves(a.id), orders), m) && MoveBy(a, orders, m).id == a.id
  {
    if orders != [] {
      var init, o := orders[..|orders| - 1], orders[|orders| - 1];
      MoveByOwnOrders(a, init, m);
      var kept := Filter(Moves(a.id), init);
      assert (kept + [o])[..|kept + [o]| - 1] == kept;
    }
  }

  lemma SameMovements(s: Snapshot, xs: seq<MovementOrder>, ys: seq<MovementOrder>, id: ArmyId)
    requires SameOrders(MovedBy(s), xs, ys)
    ensures Filter(Moves(id), xs) == Filter(Moves(id), ys)
  {
    match FindArmy(s.armies, id)
    case Some(a) => SameSelection(MovedBy(s), Moves(id), xs, ys, a.owner);
    case None =>
      forall o | o in xs || o in ys ensures !Moves(id)(o) {
        var p :| MovedBy(s)(p)(o);
      }
      FilterNone(Moves(id), xs);
      FilterNone(Moves(id), ys);
  }

  lemma SameDepartures(s: Snapshot, xs: seq<MovementOrder>, ys: seq<MovementOrder>, armies: seq<Army>, m: MapDefinition)
    requires SameOrders(MovedBy(s), xs, ys)
    ensures FilterMap(Departing(xs, m), armies) == FilterMap(Departing(ys, m), armies)
  {
    forall a | a in armies ensures Departing(xs, m)(a) == Departing(ys, m)(a) {
      SameMovements(s, xs, ys, a.id);
      MoveByOwnOrders(a, xs, m);
      MoveByOwnOrders(a, ys, m);
    }
    FilterMapCongruent(Departing(xs, m), Departing(ys, m), armies);
  }

  // ---- recruitment ----

  lemma SameRecruits(t: Snapshot, xs: seq<RecruitmentOrder>, ys: seq<RecruitmentOrder>)
    requires multiset(xs) == multiset(ys)
    ensures Recruited(t, xs) == Recruited(t, ys)
  {
    RecruitOrderIsTotal(t.cities);
    SortOfPermutation(RecruitOrder(t.cities), xs, ys);
  }

  // ---- upgrades ----

  function InCity(c: CityId): UpgradeOrder -> bool {
    (o: UpgradeOrder) => o.city == c
  }

  lemma {:induction false} FilterMapIgnores<A, B>(f: A -> Option<B>, keep: A -> bool, xs: seq<A>)
    requires forall x :: x in xs && !keep(x) ==> f(x) == None
    ensures FilterMap(f, xs) == FilterMap(f, Filter(keep, xs))
  {
    if xs != [] {
      var init, last := xs[..|xs| - 1], xs[|xs| - 1];
      assert last in xs;
      FilterMapIgnores(f, keep, init);
      if keep(last) {
        FilterMapConcat(f, Filter(keep, init), [last]);
        assert FilterMap(f, [last]) == match f(last) { case None => [] case Some(y) => [y] };
      }
    }
  }

  lemma SameUpgradesInCity(s: Snapshot, xs: seq<UpgradeOrder>, ys: seq<UpgradeOrder>, c: CityId)
    requires SameOrders(UpgradedBy(s), xs, ys)
    ensures Filter(InCity(c), xs) == Filter(InCity(c), ys)
  {
    match CityOwner(s.cities, c)
    case Some(p) => SameSelection(UpgradedBy(s), InCity(c), xs, ys, p);
    case None =>
      forall o | o in xs || o in ys ensures !InCity(c)(o) {
        var p :| UpgradedBy(s)(p)(o);
      }
      FilterNone(InCity(c), xs);
      FilterNone(InCity(c), ys);
  }

  lemma SameUpgrades(s: Snapshot, t: Snapshot, xs: seq<UpgradeOrder>, ys: seq<UpgradeOrder>)
    requires SameOrders(UpgradedBy(s), xs, ys)
    ensures UpgradesStarted(s.cities, t, xs) == UpgradesStarted(s.cities, t, ys)
  {
    SameMultiset(UpgradedBy(s), xs, ys);
    forall c | c in t.cities ensures FilterMap(NewItem(s.cities, t, c), xs) == FilterMap(NewItem(s.cities, t, c), ys) {
      SameUpgradesInCity(s, xs, ys, c);
      FilterMapIgnores(NewItem(s.cities, t, c), InCity(c), xs);
      FilterMapIgnores(NewItem(s.cities, t, c), InCity(c), ys);
    }
    forall p | p in t.players ensures SumBy(UpgradeBill(s.cities, t, p), xs) == SumBy(UpgradeBill(s.cities, t, p), ys) {
      SumByMultiset(UpgradeBill(s.cities, t, p), xs, ys);
    }
    SameStarted(s.cities, t, xs, ys);
  }

  lemma SameStarted(start: map<CityId, City>, t: Snapshot, xs: seq<UpgradeOrder>, ys: seq<UpgradeOrder>)
    requires forall c :: c in t.cities ==> FilterMap(NewItem(start, t, c), xs) == FilterMap(NewItem(start, t, c), ys)
    requires forall p :: p in t.players ==> SumBy(UpgradeBill(start, t, p), xs) == SumBy(UpgradeBill(start, t, p), ys)
    ensures UpgradesStarted(start, t, xs) == UpgradesStarted(start, t, ys)
  {
    SameQueues(start, t, xs, ys);
    SameBills(start, t, xs, ys);
  }

  lemma SameQueues(start: map<CityId, City>, t: Snapshot, xs: seq<UpgradeOrder>, ys: seq<UpgradeOrder>)
    requires forall c :: c in t.cities ==> FilterMap(NewItem(start, t, c), xs) == FilterMap(NewItem(start, t, c), ys)
    ensures UpgradesStarted(start, t, xs).cities == UpgradesStarted(start, t, ys).cities
  {
  }

  lemma SameBills(start: map<CityId, City>, t: Snapshot, xs: seq<UpgradeOrder>, ys: seq<UpgradeOrder>)
    requires forall p :: p in t.players ==> SumBy(UpgradeBill(start, t, p), xs) == SumBy(UpgradeBill(start, t, p), ys)
    ensures UpgradesStarted(start, t, xs).players == UpgradesStarted(start, t, ys).players
  {
  }

  // ---- transfers ----

  lemma SameTransfers(t: Snapshot, xs: seq<TransferOrder>, ys: seq<TransferOrder>)
    requires multiset(xs) == multiset(ys)
    ensures Transferred(t, xs) == Transferred(t, ys)
  {
    forall p | p in t.players ensures AfterTransfers(t.players, p, xs) == AfterTransfers(t.players, p, ys) {
      forall r: Resource ensures SumBy(TransferNet(t.players, p, r), xs) == SumBy(TransferNet(t.players, p, r), ys) {
        SumByMultiset(TransferNet(t.players, p, r), xs, ys);
      }
    }
    assert Transferred(t, xs).players == Transferred(t, ys).players;
  }

  // ---- the tick ----

  lemma SameBuild(s: Snapshot, t: Snapshot, a: OrderBatch, b: OrderBatch)
    requires SameParts(s, a, b) && t.cities == s.cities
    ensures BuildPhase(t, a) == BuildPhase(t, b)
  {
    SamePartsByKind(s, a, b);
    SameMultiset(RecruitedBy(s), a.recruitment, b.recruitment);
    SameMultiset(SentBy(), a.transfers, b.transfers);
    var advanced := QueuesAdvanced(t);
    SameRecruits(advanced, a.recruitment, b.recruitment);
    var recruited := Recruited(advanced, a.recruitment);
    SameUpgrades(s, recruited, a.upgrades, b.upgrades);
    SameTransfers(UpgradesStarted(s.cities, recruited, a.upgrades), a.transfers, b.transfers);
  }

  /** Two batches whose orders agree player by player resolve to the same next state. */
  lemma SameTick(s: Snapshot, m: MapDefinition, a: OrderBatch, b: OrderBatch)
    requires SameParts(s, a, b)
    ensures NextState(s, a, m) == NextState(s, b, m)
  {
    var paid := ResourcePhase(s);
    SameBuild(s, paid, a, b);
    SamePartsByKind(s, a, b);
    var built := BuildPhase(paid, a);
    SameDepartures(s, a.movements, b.movements, FilterMap(STEP_TRANSIT, built.armies), m);
  }

  lemma QueuedSameParts(s: Snapshot, m: MapDefinition, one: seq<OrderEnvelope>, other: seq<OrderEnvelope>)
    requires forall p :: Filter(From(p), one) == Filter(From(p), other)
    ensures SameParts(s, QueuedBatch(s, m, one), QueuedBatch(s, m, other))
  {
    JoinedIssued(s, m, one, Submitters(one));
    JoinedIssued(s, m, other, Submitters(other));
    forall p ensures PartOf(s, QueuedBatch(s, m, one), p) == PartOf(s, QueuedBatch(s, m, other), p) {
      PartOfQueued(s, m, one, p);
      PartOfQueued(s, m, other, p);
      assert Filter(From(p), one) == Filter(From(p), other);
    }
  }

  /** Reordering the queue without reordering any one player's submissions changes nothing. */
  lemma QueueOrderIrrelevant(s: Snapshot, m: MapDefinition, one: seq<OrderEnvelope>, other: seq<OrderEnvelope>)
    requires forall p :: Filter(From(p), one) == Filter(From(p), other)
    ensures NextState(s, QueuedBatch(s, m, one), m) == NextState(s, QueuedBatch(s, m, other), m)
  {
    QueuedSameParts(s, m, one, other);
    SameTick(s, m, QueuedBatch(s, m, one), QueuedBatch(s, m, other));
  }
}
