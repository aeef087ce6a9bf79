/** Building queues: one item per track, always above the level built, through every phase of a tick. */
module QueueInvariant {
  import opened Collections
  import opened Domain
  import opened Phases
  import opened BuildFacts
  import opened Invariants
  import opened Validation
  import opened ValidationFacts
  import opened Submissions
  import opened OrderIndependence

  // ---- counting down ----

  lemma {:induction false} FinishOther(upgrades: Upgrades, queue: seq<QueueItem>, t: Track)
    requires forall q :: q in queue && q.track == t ==> q.ticksRemaining != 1
    ensures FinishItems(upgrades, queue).Get(t) == upgrades.Get(t)
  {
    if queue != [] {
      assert queue[|queue| - 1] in queue;
      FinishOther(upgrades, queue[..|queue| - 1], t);
    }
  }

  ghost predicate TracksDistinct(queue: seq<QueueItem>) {
    forall i, j :: 0 <= i < j < |queue| ==> queue[i].track != queue[j].track
  }

  lemma {:induction false} CountDownKeeps(queue: seq<QueueItem>)
    requires TracksDistinct(queue) && forall q :: q in queue ==> 0 < q.ticksRemaining
    ensures TracksDistinct(FilterMap(COUNT_DOWN, queue))
    ensures forall y :: y in FilterMap(COUNT_DOWN, queue) ==> 0 < y.ticksRemaining
    ensures forall y :: y in FilterMap(COUNT_DOWN, queue) ==>
      exists x :: x in queue && x.track == y.track && x.tier == y.tier && x.ticksRemaining != 1
  {
    if queue != [] {
      var init, last := queue[..|queue| - 1], queue[|queue| - 1];
      assert last in queue;
      CountDownKeeps(init);
      var kept := FilterMap(COUNT_DOWN, init);
      forall i | 0 <= i < |kept| ensures kept[i].track != last.track {
        assert kept[i] in kept;
        var x :| x in init && x.track == kept[i].track;
      }
    }
  }

  lemma AdvanceKeepsQueue(city: City)
    requires QueueOk(city)
    ensures QueueOk(AdvanceQueue(city))
    ensures forall q :: q in AdvanceQueue(city).queue ==> exists x :: x in city.queue && x.track == q.track
    ensures forall t: Track :: (forall q :: q in city.queue ==> q.track != t) ==>
      AdvanceQueue(city).upgrades.Get(t) == city.upgrades.Get(t)
  {
    forall q | q in city.queue ensures 0 < q.ticksRemaining && city.upgrades.Get(q.track) < q.tier { }
    CountDownKeeps(city.queue);
    var advanced := AdvanceQueue(city);
    forall y | y in advanced.queue ensures advanced.upgrades.Get(y.track) < y.tier {
      var x :| x in city.queue && x.track == y.track && x.tier == y.tier && x.ticksRemaining != 1;
      forall q | q in city.queue && q.track == y.track ensures q == x { }
      FinishOther(city.upgrades, city.queue, y.track);
    }
    forall t: Track | forall q :: q in city.queue ==> q.track != t
      ensures advanced.upgrades.Get(t) == city.upgrades.Get(t)
    {
      FinishOther(city.upgrades, city.queue, t);
    }
  }

  // ---- new items ----

  ghost predicate OnePerTrack(orders: seq<UpgradeOrder>) {
    forall c, t :: |Filter(OnTrack(c, t), orders)| <= 1
  }

  lemma OnePerTrackInit(orders: seq<UpgradeOrder>)
    requires OnePerTrack(orders) && orders != []
    ensures OnePerTrack(orders[..|orders| - 1])
    ensures var o := orders[|orders| - 1]; Filter(OnTrack(o.city, o.track), orders[..|orders| - 1]) == []
  {
    forall c, t ensures |Filter(OnTrack(c, t), orders[..|orders| - 1])| <= |Filter(OnTrack(c, t), orders)| { }
    var o := orders[|orders| - 1];
    assert |Filter(OnTrack(o.city, o.track), orders)| <= 1;
  }

  lemma {:induction false} NewItemsDistinct(start: map<CityId, City>, s: Snapshot, c: CityId, orders: seq<UpgradeOrder>)
    requires OnePerTrack(orders)
    ensures TracksDistinct(FilterMap(NewItem(start, s, c), orders))
    ensures forall q :: q in FilterMap(NewItem(start, s, c), orders) ==>
      exists o :: o in orders && o.city == c && o.track == q.track && o.target == q.tier && 0 < q.ticksRemaining
        && q.track !in QueuedTracks(start, c)
  {
    if orders != [] {
      var init, last := orders[..|orders| - 1], orders[|orders| - 1];
      OnePerTrackInit(orders);
      NewItemsDistinct(start, s, c, init);
      assert last in orders;
      var items := FilterMap(NewItem(start, s, c), init);
      if last.city == c {
        forall i | 0 <= i < |items| ensures items[i].track != last.track {
          assert items[i] in items;
          var o :| o in init && o.city == c && o.track == items[i].track;
          FilterMember(OnTrack(c, o.track), init, o);
        }
      }
    }
  }

  lemma QueueExtends(before: City, now: City, items: seq<QueueItem>)
    requires QueueOk(before) && QueueOk(now) && TracksDistinct(items)
    requires forall q :: q in now.queue ==> exists x :: x in before.queue && x.track == q.track
    requires forall q :: q in items ==> 0 < q.ticksRemaining && now.upgrades.Get(q.track) < q.tier
    requires forall q, x :: q in items && x in before.queue ==> x.track != q.track
    ensures QueueOk(now.(queue := now.queue + items))
  {
    forall i, j | 0 <= i < |now.queue| && 0 <= j < |items| ensures now.queue[i].track != items[j].track {
      assert items[j] in items;
      assert now.queue[i] in now.queue;
    }
  }

  /** Every upgrade order aims one tier up, and no track is ordered twice. */
  ghost predicate UpgradesFit(s: Snapshot, orders: seq<UpgradeOrder>) {
    OnePerTrack(orders) && forall o :: o in orders ==> NextTier(s, o)
  }

  lemma CityQueueKept(s: Snapshot, t: Snapshot, c: CityId, orders: seq<UpgradeOrder>)
    requires c in s.cities && QueueOk(s.cities[c]) && UpgradesFit(s, orders)
    requires c in t.cities && t.cities[c] == AdvanceQueue(s.cities[c])
    ensures QueueOk(t.cities[c].(queue := t.cities[c].queue + FilterMap(NewItem(s.cities, t, c), orders)))
  {
    var items := FilterMap(NewItem(s.cities, t, c), orders);
    AdvanceKeepsQueue(s.cities[c]);
    NewItemsDistinct(s.cities, t, c, orders);
    forall q | q in items
      ensures 0 < q.ticksRemaining && t.cities[c].upgrades.Get(q.track) < q.tier
      ensures forall x :: x in s.cities[c].queue ==> x.track != q.track
    {
      var o :| o in orders && o.city == c && o.track == q.track && o.target == q.tier && 0 < q.ticksRemaining
        && q.track !in QueuedTracks(s.cities, c);
      assert NextTier(s, o);
    }
    QueueExtends(s.cities[c], t.cities[c], items);
  }

  lemma BuildKeepsQueues(s: Snapshot, orders: OrderBatch)
    requires QueuesOk(s) && UpgradesFit(s, orders.upgrades)
    ensures QueuesOk(BuildPhase(s, orders))
  {
    var advanced := QueuesAdvanced(s);
    var recruited := Recruited(advanced, orders.recruitment);
    RecruitFrameSorted(advanced, orders.recruitment);
    var built := UpgradesStarted(s.cities, recruited, orders.upgrades);
    forall c | c in built.cities ensures QueueOk(built.cities[c]) {
      CityQueueKept(s, recruited, c, orders.upgrades);
    }
  }

  lemma RecruitFrameSorted(s: Snapshot, orders: seq<RecruitmentOrder>)
    ensures Recruited(s, orders).cities == s.cities
  {
    RecruitFrame(s, Ordering.Sort(RecruitOrder(s.cities), orders));
  }

  // ---- what validation guarantees ----

  lemma {:induction false} JoinedNextTier(s: Snapshot, m: MapDefinition, queue: seq<OrderEnvelope>, players: seq<PlayerId>)
    ensures forall o :: o in JoinedAccepted(s, m, queue, players).upgrades ==> NextTier(s, o)
  {
    if players != [] {
      JoinedNextTier(s, m, queue, players[..|players| - 1]);
      match CombinedFor(queue, players[|players| - 1])
      case None =>
      case Some(e) => AcceptedNextTier(s, m, e);
    }
  }

  lemma AcceptedNextTier(s: Snapshot, m: MapDefinition, e: OrderEnvelope)
    ensures forall o :: o in Validated(s, m, e).accepted.upgrades ==> NextTier(s, o)
    ensures OnePerTrack(Validated(s, m, e).accepted.upgrades)
  {
    var p := e.playerId;
    if e.tick == s.tick && p in s.players {
      var recruitment := RecruitmentPass(s, p, s.players[p].resources, e.orders.recruitment);
      UpgradesAccepted(s, p, recruitment.budget, e.orders.upgrades);
      forall c, t ensures |Filter(OnTrack(c, t), Validated(s, m, e).accepted.upgrades)| <= 1 {
        UpgradesDistinct(s, p, recruitment.budget, e.orders.upgrades, c, t);
      }
    }
  }

  lemma QueuedUpgradesFit(s: Snapshot, m: MapDefinition, queue: seq<OrderEnvelope>)
    ensures UpgradesFit(s, QueuedBatch(s, m, queue).upgrades)
  {
    JoinedNextTier(s, m, queue, Submitters(queue));
    JoinedIssued(s, m, queue, Submitters(queue));
    var upgrades := QueuedBatch(s, m, queue).upgrades;
    forall c, t ensures |Filter(OnTrack(c, t), upgrades)| <= 1 { QueuedOnePerTrack(s, m, queue, c, t); }
  }

  lemma QueuedOnePerTrack(s: Snapshot, m: MapDefinition, queue: seq<OrderEnvelope>, c: CityId, t: Track)
    requires BatchIssued(s, QueuedBatch(s, m, queue))
    ensures |Filter(OnTrack(c, t), QueuedBatch(s, m, queue).upgrades)| <= 1
  {
    var upgrades := QueuedBatch(s, m, queue).upgrades;
    match CityOwner(s.cities, c)
    case Some(p) =>
      FilterFilter(UpgradedBy(s)(p), OnTrack(c, t), OnTrack(c, t), upgrades);
      PartOfQueued(s, m, queue, p);
      assert Filter(UpgradedBy(s)(p), upgrades) == AcceptedFor(s, m, queue, p).upgrades;
      match CombinedFor(queue, p) {
        case None =>
        case Some(e) => AcceptedNextTier(s, m, e);
      }
    case None =>
      forall o | o in upgrades ensures !OnTrack(c, t)(o) {
        var p :| UpgradedBy(s)(p)(o);
      }
      FilterNone(OnTrack(c, t), upgrades);
  }

  // ---- later phases only lower fortifications ----

  lemma WeakenKeepsQueue(city: City)
    requires QueueOk(city)
    ensures QueueOk(Weaken(city))
  {
  }

  lemma TickKeepsQueues(s: Snapshot, orders: OrderBatch, m: MapDefinition)
    requires QueuesOk(s) && UpgradesFit(s, orders.upgrades)
    ensures QueuesOk(NextState(s, orders, m))
  {
    var paid := ResourcePhase(s);
    BuildKeepsQueues(paid, orders);
    var fought := CombatPhase(AfterMovement(s, orders, m));
    forall c | c in fought.cities ensures QueueOk(fought.cities[c]) {
      assert QueueOk(BuildPhase(paid, orders).cities[c]);
    }
    FortificationKeepsQueues(fought, m, UnpaidCities(s));
  }

  lemma FortificationKeepsQueues(s: Snapshot, m: MapDefinition, unpaid: set<CityId>)
    requires QueuesOk(s)
    ensures QueuesOk(AttritionPhase(SiegePhase(s, m), unpaid, SiegeDegraded(s, m)))
  {
    var t := AttritionPhase(SiegePhase(s, m), unpaid, SiegeDegraded(s, m));
    forall c | c in t.cities ensures QueueOk(t.cities[c]) {
      WeakenKeepsQueue(s.cities[c]);
    }
  }
}
