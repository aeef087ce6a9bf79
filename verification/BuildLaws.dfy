/** What becomes of a building queue: items count down, finish on time and raise their track, and accepted upgrades start. */
module BuildLaws {
  import opened Collections
  import opened Domain
  import opened Phases
  import opened BuildFacts
  import opened AttritionFacts
  import opened Invariants
  import opened QueueInvariant
  import opened Submissions
  import opened OrderIndependence
  import opened RunInvariant
  import opened Regression
  import opened Fortification

  // ---- one step of a queue ----

  /** The items that are not due, in their order, each with one tick less to go. */
  function Waiting(queue: seq<QueueItem>): seq<QueueItem> {
    if queue == [] then [] else
      var q := queue[|queue| - 1];
      Waiting(queue[..|queue| - 1]) + if q.ticksRemaining > 1 then [q.(ticksRemaining := q.ticksRemaining - 1)] else []
  }

  /** Some item on the track is due. */
  ghost predicate DueOn(queue: seq<QueueItem>, t: Track) {
    exists q :: q in queue && q.track == t && q.ticksRemaining == 1
  }

  lemma {:induction false} WaitingIsCountedDown(queue: seq<QueueItem>)
    requires forall q :: q in queue ==> 0 < q.ticksRemaining
    ensures FilterMap(COUNT_DOWN, queue) == Waiting(queue)
  {
    if queue != [] {
      assert queue[|queue| - 1] in queue;
      WaitingIsCountedDown(queue[..|queue| - 1]);
    }
  }

  lemma {:induction false} WaitingHolds(queue: seq<QueueItem>, q: QueueItem)
    requires q in queue && q.ticksRemaining > 1
    ensures q.(ticksRemaining := q.ticksRemaining - 1) in Waiting(queue)
  {
    if q != queue[|queue| - 1] {
      assert q in queue[..|queue| - 1];
      WaitingHolds(queue[..|queue| - 1], q);
    }
  }

  lemma {:induction false} DueItemRaises(upgrades: Upgrades, queue: seq<QueueItem>, q: QueueItem)
    requires TracksDistinct(queue) && q in queue && q.ticksRemaining == 1
    ensures FinishItems(upgrades, queue).Get(q.track) == q.tier
  {
    var init, last := queue[..|queue| - 1], queue[|queue| - 1];
    if q != last {
      assert q in init;
      DueItemRaises(upgrades, init, q);
      var i :| 0 <= i < |init| && init[i] == q;
      assert queue[i].track != queue[|queue| - 1].track;
    }
  }

  /** A city's queue steps once: due items raise their track to their tier, other tracks stay, other items wait one tick less. */
  lemma QueueSteps(city: City)
    requires QueueOk(city)
    ensures forall q :: q in city.queue && q.ticksRemaining == 1 ==> AdvanceQueue(city).upgrades.Get(q.track) == q.tier
    ensures forall t: Track :: !DueOn(city.queue, t) ==> AdvanceQueue(city).upgrades.Get(t) == city.upgrades.Get(t)
    ensures AdvanceQueue(city).queue == Waiting(city.queue)
  {
    forall q | q in city.queue ensures 0 < q.ticksRemaining { }
    WaitingIsCountedDown(city.queue);
    forall q | q in city.queue && q.ticksRemaining == 1 ensures AdvanceQueue(city).upgrades.Get(q.track) == q.tier {
      DueItemRaises(city.upgrades, city.queue, q);
    }
    forall t: Track | !DueOn(city.queue, t) ensures AdvanceQueue(city).upgrades.Get(t) == city.upgrades.Get(t) {
      FinishOther(city.upgrades, city.queue, t);
    }
  }

  // ---- over a tick ----

  /** The tier of fortification that besiegers or an empty treasury take from a city in this tick, if it has one. */
  ghost predicate LosesWall(s: Snapshot, orders: OrderBatch, m: MapDefinition, c: CityId)
    requires c in s.cities && c in AfterCombat(s, orders, m).cities
  {
    Besieged(AfterCombat(s, orders, m), m, c) || c in UnpaidCities(s)
  }

  /** What a city's tracks stand at after a tick, when `built` is what they stand at once its due items are finished. */
  ghost predicate Stands(s: Snapshot, orders: OrderBatch, m: MapDefinition, c: CityId, t: Track, built: int)
    requires c in s.cities && c in AfterCombat(s, orders, m).cities && c in NextState(s, orders, m).cities
  {
    NextState(s, orders, m).cities[c].upgrades.Get(t)
      == if t.Fortification? && built > 0 && LosesWall(s, orders, m, c) then built - 1 else built
  }

  lemma TracksOverTick(s: Snapshot, orders: OrderBatch, m: MapDefinition, c: CityId, t: Track)
    requires c in s.cities
    ensures c in AfterCombat(s, orders, m).cities && c in NextState(s, orders, m).cities
    ensures Stands(s, orders, m, c, t, BuiltUpgrades(s, c).Get(t))
  {
    FortificationOverTick(s, orders, m, c);
  }

  /** A due item is built in the tick, whatever else happens, but for a wall lost in that very tick. */
  lemma DueItemIsBuilt(s: Snapshot, orders: OrderBatch, m: MapDefinition, c: CityId, q: QueueItem)
    requires QueuesOk(s) && c in s.cities && q in s.cities[c].queue && q.ticksRemaining == 1
    ensures c in AfterCombat(s, orders, m).cities && c in NextState(s, orders, m).cities && Stands(s, orders, m, c, q.track, q.tier)
  {
    QueueSteps(s.cities[c]);
    BuiltIsStepped(s, c);
    TracksOverTick(s, orders, m, c, q.track);
  }

  /** A track with no due item keeps its tier, but for a lost wall. */
  lemma IdleTrackStays(s: Snapshot, orders: OrderBatch, m: MapDefinition, c: CityId, t: Track)
    requires QueuesOk(s) && c in s.cities && !DueOn(s.cities[c].queue, t)
    ensures c in AfterCombat(s, orders, m).cities && c in NextState(s, orders, m).cities
    ensures Stands(s, orders, m, c, t, s.cities[c].upgrades.Get(t))
  {
    QueueSteps(s.cities[c]);
    BuiltIsStepped(s, c);
    TracksOverTick(s, orders, m, c, t);
  }

  lemma BuiltIsStepped(s: Snapshot, c: CityId)
    requires c in s.cities
    ensures BuiltUpgrades(s, c) == AdvanceQueue(s.cities[c]).upgrades
  {
  }

  /** What a tick's orders add to a city's queue. */
  ghost function Started(s: Snapshot, orders: seq<UpgradeOrder>, c: CityId): seq<QueueItem> {
    if orders == [] then [] else
      var o := orders[|orders| - 1];
      Started(s, orders[..|orders| - 1], c)
      + if o.city == c && c in s.cities && s.cities[c].owner.Some? && s.cities[c].owner.value in s.players
           && (forall q :: q in s.cities[c].queue ==> q.track != o.track)
        then [QueueItem(o.track, o.target, o.target)] else []
  }

  lemma {:induction false} StartedAreNew(s: Snapshot, t: Snapshot, orders: seq<UpgradeOrder>, c: CityId)
    requires t.players.Keys == s.players.Keys && t.cities.Keys == s.cities.Keys
    requires forall d :: d in s.cities ==> t.cities[d].owner == s.cities[d].owner
    ensures FilterMap(NewItem(s.cities, t, c), orders) == Started(s, orders, c)
  {
    if orders != [] {
      var o := orders[|orders| - 1];
      StartedAreNew(s, t, orders[..|orders| - 1], c);
      if o.city == c && c in s.cities {
        assert o.track in QueuedTracks(s.cities, c) <==> exists q :: q in s.cities[c].queue && q.track == o.track;
      }
    }
  }

  lemma BuildKeepsBut(s: Snapshot, orders: OrderBatch, c: CityId)
    requires c in s.cities
    ensures c in BuildPhase(s, orders).cities
    ensures BuildPhase(s, orders).cities[c].queue == AdvanceQueue(s.cities[c]).queue + Started(s, orders.upgrades, c)
  {
    var advanced := QueuesAdvanced(s);
    var recruited := Recruited(advanced, orders.recruitment);
    RecruitFrame(advanced, Ordering.Sort(RecruitOrder(advanced.cities), orders.recruitment));
    StartedAreNew(s, recruited, orders.upgrades, c);
  }

  lemma LaterPhasesKeepQueue(s: Snapshot, orders: OrderBatch, m: MapDefinition, c: CityId)
    requires c in BuildPhase(ResourcePhase(s), orders).cities
    ensures c in NextState(s, orders, m).cities
    ensures NextState(s, orders, m).cities[c].queue == BuildPhase(ResourcePhase(s), orders).cities[c].queue
  {
    var fought := CombatPhase(AfterMovement(s, orders, m));
    assert c in fought.cities && fought.cities[c].queue == BuildPhase(ResourcePhase(s), orders).cities[c].queue;
    DecayKeepsQueue(fought, m, UnpaidCities(s), c);
  }

  lemma DecayKeepsQueue(s: Snapshot, m: MapDefinition, unpaid: set<CityId>, c: CityId)
    requires c in s.cities
    ensures var t := VictoryPhase(AttritionPhase(SiegePhase(s, m), unpaid, SiegeDegraded(s, m)));
      c in t.cities && t.cities[c].queue == s.cities[c].queue
  {
  }

  /** Over a tick a queue is what still waits, and behind it an item for every order on an idle track of an owned city. */
  lemma QueueOverTick(s: Snapshot, orders: OrderBatch, m: MapDefinition, c: CityId)
    requires QueuesOk(s) && c in s.cities
    ensures c in NextState(s, orders, m).cities
    ensures NextState(s, orders, m).cities[c].queue == Waiting(s.cities[c].queue) + Started(s, orders.upgrades, c)
  {
    var paid := ResourcePhase(s);
    QueueSteps(s.cities[c]);
    BuildKeepsBut(paid, orders, c);
    SameStart(s, paid, orders.upgrades, c);
    LaterPhasesKeepQueue(s, orders, m, c);
  }

  lemma {:induction false} SameStart(s: Snapshot, t: Snapshot, orders: seq<UpgradeOrder>, c: CityId)
    requires t.cities == s.cities && t.players.Keys == s.players.Keys
    ensures Started(t, orders, c) == Started(s, orders, c)
  {
    if orders != [] { SameStart(s, t, orders[..|orders| - 1], c); }
  }

  // ---- over a run ----

  lemma {:induction false} StartedHolds(s: Snapshot, orders: seq<UpgradeOrder>, o: UpgradeOrder)
    requires o in orders && o.city in s.cities && s.cities[o.city].owner.Some? && s.cities[o.city].owner.value in s.players
    requires forall q :: q in s.cities[o.city].queue ==> q.track != o.track
    ensures QueueItem(o.track, o.target, o.target) in Started(s, orders, o.city)
  {
    if o != orders[|orders| - 1] {
      assert o in orders[..|orders| - 1];
      StartedHolds(s, orders[..|orders| - 1], o);
    }
  }

  /** An accepted upgrade on an idle track is in the queue after the tick, with as many ticks to go as the tier it aims at. */
  lemma AcceptedUpgradeStarts(s: Snapshot, m: MapDefinition, queue: seq<OrderEnvelope>, o: UpgradeOrder)
    requires QueuesOk(s) && OwnersKnown(s) && o in QueuedBatch(s, m, queue).upgrades
    requires o.city in s.cities ==> forall q :: q in s.cities[o.city].queue ==> q.track != o.track
    ensures Queued(Tick(s, m, queue), o.city, QueueItem(o.track, o.target, o.target))
  {
    var batch := QueuedBatch(s, m, queue);
    JoinedIssued(s, m, queue, Submitters(queue));
    var p :| UpgradedBy(s)(p)(o);
    QueueOverTick(s, batch, m, o.city);
    StartedHolds(s, batch.upgrades, o);
  }

  ghost predicate Queued(s: Snapshot, c: CityId, q: QueueItem) {
    c in s.cities && q in s.cities[c].queue
  }

  /** The tick on this queue leaves the track at the tier, but for a wall lost in that very tick. */
  ghost predicate BuiltIn(s: Snapshot, m: MapDefinition, queue: seq<OrderEnvelope>, c: CityId, t: Track, tier: int) {
    var batch := QueuedBatch(s, m, queue);
    c in s.cities && c in AfterCombat(s, batch, m).cities && c in NextState(s, batch, m).cities && Stands(s, batch, m, c, t, tier)
  }

  lemma ItemWaits(s: Snapshot, m: MapDefinition, queue: seq<OrderEnvelope>, c: CityId, q: QueueItem)
    requires QueuesOk(s) && Queued(s, c, q) && q.ticksRemaining > 1
    ensures Queued(Tick(s, m, queue), c, q.(ticksRemaining := q.ticksRemaining - 1))
  {
    QueueOverTick(s, QueuedBatch(s, m, queue), m, c);
    WaitingHolds(s.cities[c].queue, q);
  }

  lemma DueIsBuiltIn(s: Snapshot, m: MapDefinition, queue: seq<OrderEnvelope>, c: CityId, q: QueueItem)
    requires QueuesOk(s) && Queued(s, c, q) && q.ticksRemaining == 1
    ensures BuiltIn(s, m, queue, c, q.track, q.tier)
  {
    DueItemIsBuilt(s, QueuedBatch(s, m, queue), m, c, q);
  }

  /** What is built stands, unless it is a wall that fell. */
  lemma BuiltStands(s: Snapshot, m: MapDefinition, queue: seq<OrderEnvelope>, c: CityId, t: Track, tier: int)
    requires BuiltIn(s, m, queue, c, t, tier)
    ensures c in Tick(s, m, queue).cities
    ensures !t.Fortification? ==> Tick(s, m, queue).cities[c].upgrades.Get(t) == tier
    ensures t.Fortification? ==> tier - 1 <= Tick(s, m, queue).cities[c].upgrades.Get(t) <= tier
  {
  }

  lemma ItemWaitsInRun(m: MapDefinition, states: seq<Snapshot>, queues: seq<seq<OrderEnvelope>>, j: nat, c: CityId, q: QueueItem)
    requires IsRun(m, states, queues) && j + 1 < |states| && QueuesOk(states[j]) && Queued(states[j], c, q) && q.ticksRemaining > 1
    ensures Queued(states[j + 1], c, q.(ticksRemaining := q.ticksRemaining - 1))
  {
    ItemWaits(states[j], m, queues[j], c, q);
  }

  lemma {:induction false} CountsDown(queued: (nat, int) -> bool, i: nat, r: int, k: nat)
    requires queued(i, r) && k < r && forall j: nat, x: int :: i <= j < i + k && 1 < x && queued(j, x) ==> queued(j + 1, x - 1)
    ensures queued(i + k, r - k)
  {
    if k > 0 { CountsDown(queued, i, r, k - 1); }
  }

  /** In state j the city's queue holds the item, with x ticks to go. */
  function WithTicks(states: seq<Snapshot>, c: CityId, q: QueueItem): (nat, int) -> bool {
    (j: nat, x: int) => j < |states| && c in states[j].cities && q.(ticksRemaining := x) in states[j].cities[c].queue
  }

  lemma CountsDownInRun(m: MapDefinition, states: seq<Snapshot>, queues: seq<seq<OrderEnvelope>>, c: CityId, q: QueueItem, j: nat, x: int)
    requires IsRun(m, states, queues) && j + 1 < |states| && QueuesOk(states[j]) && 1 < x && WithTicks(states, c, q)(j, x)
    ensures WithTicks(states, c, q)(j + 1, x - 1)
  {
    ItemWaitsInRun(m, states, queues, j, c, q.(ticksRemaining := x));
  }

  /** An item with r ticks to go has r - k to go k ticks later. */
  lemma ItemComesDue(m: MapDefinition, states: seq<Snapshot>, queues: seq<seq<OrderEnvelope>>, i: nat, c: CityId, q: QueueItem, r: int, k: nat)
    requires IsRun(m, states, queues) && i + k < |states| && k < r && WithTicks(states, c, q)(i, r)
    requires forall j :: 0 <= j < |states| ==> QueuesOk(states[j])
    ensures WithTicks(states, c, q)(i + k, r - k)
  {
    forall j: nat, x: int | i <= j < i + k && 1 < x && WithTicks(states, c, q)(j, x) ensures WithTicks(states, c, q)(j + 1, x - 1) {
      CountsDownInRun(m, states, queues, c, q, j, x);
    }
    CountsDown(WithTicks(states, c, q), i, r, k);
  }

  /** The i-th tick of a run starts from the i-th state and ends in the next. */
  ghost predicate BuiltInTick(m: MapDefinition, states: seq<Snapshot>, queues: seq<seq<OrderEnvelope>>, i: nat, c: CityId, t: Track, tier: int) {
    i < |queues| && i < |states| && BuiltIn(states[i], m, queues[i], c, t, tier)
  }

  lemma QueuesStayOk(m: MapDefinition, states: seq<Snapshot>, queues: seq<seq<OrderEnvelope>>, threshold: nat)
    requires IsRun(m, states, queues) && RunState(states[0], m, threshold)
    ensures forall j :: 0 <= j < |states| ==> QueuesOk(states[j])
  {
    forall j | 0 <= j < |states| ensures QueuesOk(states[j]) { RunKeepsInv(m, states, queues, j, threshold); }
  }

  lemma OrderStartsInRun(m: MapDefinition, states: seq<Snapshot>, queues: seq<seq<OrderEnvelope>>, i: nat, o: UpgradeOrder, threshold: nat)
    requires IsRun(m, states, queues) && RunState(states[0], m, threshold) && i + 1 < |states|
    requires o in QueuedBatch(states[i], m, queues[i]).upgrades
    requires o.city in states[i].cities ==> forall q :: q in states[i].cities[o.city].queue ==> q.track != o.track
    ensures WithTicks(states, o.city, QueueItem(o.track, o.target, o.target))(i + 1, o.target)
  {
    RunKeepsInv(m, states, queues, i, threshold);
    AcceptedUpgradeStarts(states[i], m, queues[i], o);
  }

  lemma DueInRun(m: MapDefinition, states: seq<Snapshot>, queues: seq<seq<OrderEnvelope>>, i: nat, c: CityId, q: QueueItem)
    requires |states| == |queues| + 1 && i < |queues| && QueuesOk(states[i]) && WithTicks(states, c, q)(i, 1)
    ensures BuiltInTick(m, states, queues, i, c, q.track, q.tier)
  {
    DueIsBuiltIn(states[i], m, queues[i], c, q.(ticksRemaining := 1));
  }

  /** An item with r ticks to go is built in the r-th tick from there. */
  lemma ItemIsBuilt(m: MapDefinition, states: seq<Snapshot>, queues: seq<seq<OrderEnvelope>>, i: nat, c: CityId, q: QueueItem, r: int, j: nat)
    requires IsRun(m, states, queues) && 0 < r && j == i + r - 1 && j + 1 < |states| && WithTicks(states, c, q)(i, r)
    requires forall j :: 0 <= j < |states| ==> QueuesOk(states[j])
    ensures BuiltInTick(m, states, queues, j, c, q.track, q.tier)
  {
    ItemComesDue(m, states, queues, i, c, q, r, r - 1);
    DueInRun(m, states, queues, j, c, q);
  }

  lemma ItemIsBuiltInRun(m: MapDefinition, states: seq<Snapshot>, queues: seq<seq<OrderEnvelope>>, i: nat, c: CityId,
                         t: Track, tier: TargetTier, r: int, j: nat, threshold: nat)
    requires IsRun(m, states, queues) && RunState(states[0], m, threshold)
    requires 0 < r && j == i + r - 1 && j + 1 < |states| && WithTicks(states, c, QueueItem(t, tier, r))(i, r)
    ensures BuiltInTick(m, states, queues, j, c, t, tier)
  {
    QueuesStayOk(m, states, queues, threshold);
    ItemIsBuilt(m, states, queues, i, c, QueueItem(t, tier, r), r, j);
  }

  /**
   * In every run, an accepted upgrade to tier t on an idle track is built in the t-th tick after the one it was accepted
   * for: the track then stands at t, but for a wall lost in that very tick.
   */
  lemma AcceptedUpgradeIsBuilt(m: MapDefinition, states: seq<Snapshot>, queues: seq<seq<OrderEnvelope>>, i: nat, o: UpgradeOrder, threshold: nat)
    returns (j: nat)
    requires IsRun(m, states, queues) && RunState(states[0], m, threshold) && i + 1 + o.target < |states|
    requires o in QueuedBatch(states[i], m, queues[i]).upgrades
    requires o.city in states[i].cities ==> forall q :: q in states[i].cities[o.city].queue ==> q.track != o.track
    ensures j == i + o.target && BuiltInTick(m, states, queues, j, o.city, o.track, o.target)
  {
    j := i + o.target;
    OrderStartsInRun(m, states, queues, i, o, threshold);
    ItemIsBuiltInRun(m, states, queues, i + 1, o.city, o.track, o.target, o.target, j, threshold);
  }
}
