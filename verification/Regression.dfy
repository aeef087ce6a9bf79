/** The regression harness's checks as a predicate, and the runs over which they hold. */
module Regression {
  import opened Collections
  import opened Ordering
  import opened Domain
  import opened Leadership
  import opened Phases
  import opened AttritionFacts
  import opened Invariants
  import opened Submissions
  import opened Economy
  import opened RunInvariant

  // ---- the checks, as the harness words them ----

  ghost predicate CitiesPass(s: Snapshot, m: MapDefinition) {
    && s.cities.Keys == m.cities.Keys
    && (forall c :: c in s.cities ==>
          && (s.cities[c].owner.Some? ==> s.cities[c].owner.value in s.players)
          && 0 <= s.cities[c].population && 0 <= s.cities[c].garrison
          && 0 <= s.cities[c].base.food && 0 <= s.cities[c].base.production && 0 <= s.cities[c].base.money)
  }

  ghost predicate ArmiesPass(s: Snapshot) {
    forall a :: a in s.armies ==>
      && a.owner in s.players
      && 0 < a.troops
      && (a.location.Some? ==> a.location.value in s.cities)
      && (a.destination.Some? ==> a.destination.value in s.cities)
      && (a.path.Some? ==> forall c :: c in a.path.value ==> c in s.cities)
  }

  /** Everything asked of a player except that food and money are not below zero. */
  ghost predicate PlayersPass(s: Snapshot) {
    forall p :: p in s.players ==>
      && 0 <= s.players[p].resources.production
      && (forall c :: c in s.players[p].citiesOwned ==> c in s.cities)
      && Sort(STRING_ORDER, s.players[p].citiesOwned) == Listing(OwnedCities(s.cities, p))
      && (s.players[p].isEliminated <==> OwnedCities(s.cities, p) == {} && forall a :: a in s.armies ==> a.owner != p)
  }

  ghost predicate VictoryPasses(s: Snapshot) {
    var key := PublicKey(s.players);
    var most := MaxOver(HeldBy(s, key), Sides(s, key));
    var leaders := set k | k in Sides(s, key) && HeldBy(s, key)(k) == most;
    && s.victory.threshold <= |s.cities|
    && s.victory.citiesHeld == most
    && (s.victory.leader == None ==> s.victory.countdown == None)
    && (s.victory.leader.Some? ==>
          && leaders == {s.victory.leader.value}
          && s.victory.leader.value in Sides(s, key)
          && (s.victory.countdown.Some? ==> s.victory.threshold <= s.victory.citiesHeld))
  }

  ghost predicate RegressionPasses(s: Snapshot, m: MapDefinition) {
    CitiesPass(s, m) && ArmiesPass(s) && PlayersPass(s) && VictoryPasses(s)
  }

  /** The signs of food and money, which no invariant gives. */
  ghost predicate SignsPass(s: Snapshot) {
    forall p :: p in s.players ==> 0 <= s.players[p].resources.food && 0 <= s.players[p].resources.money
  }

  /** The harness's whole verdict on a state. */
  ghost predicate HarnessPasses(s: Snapshot, m: MapDefinition) {
    RegressionPasses(s, m) && SignsPass(s)
  }

  // ---- the invariant implies the checks ----

  lemma PlayersPassFrom(s: Snapshot, m: MapDefinition)
    requires StateInv(s, m) && EliminationOk(s)
    ensures PlayersPass(s)
  {
    forall p | p in s.players
      ensures forall c :: c in s.players[p].citiesOwned ==> c in s.cities
      ensures Sort(STRING_ORDER, s.players[p].citiesOwned) == Listing(OwnedCities(s.cities, p))
      ensures s.players[p].isEliminated <==> OwnedCities(s.cities, p) == {} && forall a :: a in s.armies ==> a.owner != p
    {
      var listed := s.players[p].citiesOwned;
      forall c | c in listed ensures c in s.cities { assert c in Elements(listed); }
      SortedListing(listed);
      OwnsSomething(s, p);
    }
  }

  lemma OwnsSomething(s: Snapshot, p: PlayerId)
    ensures Present(s, p) <==> OwnedCities(s.cities, p) != {} || exists a :: a in s.armies && a.owner == p
  {
    if OwnedCities(s.cities, p) != {} {
      var c := Pick(OwnedCities(s.cities, p));
      assert s.cities[c].owner == Some(p);
    }
    forall c | c in s.cities && s.cities[c].owner == Some(p) ensures c in OwnedCities(s.cities, p) { }
  }

  lemma SortedListing(ids: seq<string>)
    requires Distinct(ids)
    ensures Sort(STRING_ORDER, ids) == Listing(Elements(ids))
  {
    StringOrderIsTotal();
    SortSorts(STRING_ORDER, ids);
    DistinctMultiset(ids);
    ListsSet(Sort(STRING_ORDER, ids), Elements(ids));
    ListingUnique(Elements(ids), Sort(STRING_ORDER, ids));
  }

  lemma VictoryPassesFrom(s: Snapshot)
    requires VictoryOk(s) && s.victory.threshold <= |s.cities|
    ensures VictoryPasses(s)
  {
    var key := PublicKey(s.players);
    if s.victory.leader.Some? {
      var k := s.victory.leader.value;
      assert SoleLeader(s, key, k);
      LeaderIs(s, key, k);
    }
  }

  lemma CitiesPassFrom(s: Snapshot, m: MapDefinition)
    requires s.cities.Keys == m.cities.Keys && OwnersKnown(s) && YieldsOk(s)
    ensures CitiesPass(s, m)
  {
  }

  lemma ArmiesPassFrom(s: Snapshot)
    requires ArmiesOk(s.armies, s.cities.Keys, s.players.Keys)
    ensures ArmiesPass(s)
  {
    forall a | a in s.armies ensures ArmyOk(a, s.cities.Keys, s.players.Keys) { }
  }

  lemma InvariantPasses(s: Snapshot, m: MapDefinition)
    requires StateInv(s, m) && EliminationOk(s) && VictoryOk(s) && s.victory.threshold <= |s.cities|
    ensures RegressionPasses(s, m)
  {
    CitiesPassFrom(s, m);
    ArmiesPassFrom(s);
    PlayersPassFrom(s, m);
    VictoryPassesFrom(s);
  }

  // ---- what a tick leaves alone ----

  ghost predicate SameAlliances(a: map<PlayerId, Player>, b: map<PlayerId, Player>) {
    a.Keys == b.Keys && forall p :: p in a ==> a[p].allianceId == b[p].allianceId
  }

  lemma {:induction false} RecruitKeepsAlliances(s: Snapshot, orders: seq<RecruitmentOrder>)
    ensures SameAlliances(s.players, RecruitAll(s, orders).players)
  {
    if orders != [] { RecruitKeepsAlliances(s, orders[..|orders| - 1]); }
  }

  lemma BuildKeepsAlliances(s: Snapshot, orders: OrderBatch)
    ensures SameAlliances(s.players, BuildPhase(s, orders).players)
    ensures BuildPhase(s, orders).victory == s.victory
  {
    var advanced := QueuesAdvanced(s);
    RecruitKeepsAlliances(advanced, Sort(RecruitOrder(advanced.cities), orders.recruitment));
    BuildFacts.RecruitFrame(advanced, Sort(RecruitOrder(advanced.cities), orders.recruitment));
  }

  lemma LatePhasesKeepAlliances(t: Snapshot, m: MapDefinition, unpaid: set<CityId>)
    ensures var fought := CombatPhase(t);
      var last := VictoryPhase(AttritionPhase(SiegePhase(fought, m), unpaid, SiegeDegraded(fought, m)));
      SameAlliances(t.players, last.players) && last.victory.threshold == t.victory.threshold
  {
  }

  lemma TickKeepsAlliances(s: Snapshot, m: MapDefinition, queue: seq<OrderEnvelope>)
    ensures SameAlliances(s.players, Tick(s, m, queue).players)
    ensures Tick(s, m, queue).victory.threshold == s.victory.threshold
  {
    PhasesKeepAlliances(s, QueuedBatch(s, m, queue), m);
  }

  lemma PhasesKeepAlliances(s: Snapshot, orders: OrderBatch, m: MapDefinition)
    ensures SameAlliances(s.players, NextState(s, orders, m).players)
    ensures NextState(s, orders, m).victory.threshold == s.victory.threshold
  {
    BuildKeepsAlliances(ResourcePhase(s), orders);
    var moved := AfterMovement(s, orders, m);
    assert SameAlliances(s.players, moved.players);
    LatePhasesKeepAlliances(moved, m, UnpaidCities(s));
  }

  lemma SameAlliancesApart(a: map<PlayerId, Player>, b: map<PlayerId, Player>)
    requires SameAlliances(a, b) && NamesApart(a)
    ensures NamesApart(b)
  {
  }

  // ---- the victory record after a tick ----

  /** Leadership reads only cities and players. */
  lemma SameLeadership<K(!new)>(s: Snapshot, t: Snapshot, key: PlayerId -> K)
    requires t.cities == s.cities && t.players == s.players
    ensures MostHeld(t, key) == MostHeld(s, key) && LeaderOf(t, key) == LeaderOf(s, key)
  {
    forall k ensures CitiesOf(t, key, k) == CitiesOf(s, key, k) && (SoleLeader(t, key, k) <==> SoleLeader(s, key, k)) {
      assert Sides(t, key) == Sides(s, key);
      forall j ensures HeldBy(t, key)(j) == HeldBy(s, key)(j) { assert CitiesOf(t, key, j) == CitiesOf(s, key, j); }
    }
    assert Sides(t, key) == Sides(s, key);
    SameMost(s, t, key);
    forall k | SoleLeader(s, key, k) ensures LeaderOf(t, key) == LeaderOf(s, key) {
      LeaderIs(s, key, k);
      LeaderIs(t, key, k);
    }
  }

  lemma SameMost<K(!new)>(s: Snapshot, t: Snapshot, key: PlayerId -> K)
    requires Sides(t, key) == Sides(s, key) && forall k :: CitiesOf(t, key, k) == CitiesOf(s, key, k)
    ensures MostHeld(t, key) == MostHeld(s, key)
  {
    if Sides(s, key) != {} {
      var i :| i in Sides(s, key) && HeldBy(s, key)(i) == MostHeld(s, key);
      var j :| j in Sides(t, key) && HeldBy(t, key)(j) == MostHeld(t, key);
      assert HeldBy(t, key)(i) == HeldBy(s, key)(i) && HeldBy(t, key)(j) == HeldBy(s, key)(j);
    }
  }

  /** The resolver's last phase leaves the victory record matching the cities. */
  lemma VictoryPhaseOk(s: Snapshot, tick: nat)
    requires NamesApart(s.players)
    ensures VictoryOk(VictoryPhase(s).(tick := tick))
  {
    var t := VictoryPhase(s).(tick := tick);
    LeadersAgree(s);
    SameLeadership(s, t, PublicKey(s.players));
  }

  ghost function BeforeVictory(s: Snapshot, orders: OrderBatch, m: MapDefinition): Snapshot {
    var fought := AfterCombat(s, orders, m);
    AttritionPhase(SiegePhase(fought, m), UnpaidCities(s), SiegeDegraded(fought, m))
  }

  lemma TickEndsWithVictory(s: Snapshot, m: MapDefinition, queue: seq<OrderEnvelope>)
    ensures Tick(s, m, queue) == VictoryPhase(BeforeVictory(s, QueuedBatch(s, m, queue), m)).(tick := s.tick + 1)
    ensures Tick(s, m, queue).players == BeforeVictory(s, QueuedBatch(s, m, queue), m).players
  {
  }

  lemma TickVictoryOk(s: Snapshot, m: MapDefinition, queue: seq<OrderEnvelope>)
    requires NamesApart(s.players)
    ensures VictoryOk(Tick(s, m, queue)) && EliminationOk(Tick(s, m, queue))
  {
    TickEndsWithVictory(s, m, queue);
    TickKeepsAlliances(s, m, queue);
    SameAlliancesApart(s.players, Tick(s, m, queue).players);
    VictoryPhaseOk(BeforeVictory(s, QueuedBatch(s, m, queue), m), s.tick + 1);
    TickMarksEliminated(s, QueuedBatch(s, m, queue), m, s.tick + 1);
  }

  // ---- runs ----

  /** States that follow each other by ticks on the given queues. */
  ghost predicate IsRun(m: MapDefinition, states: seq<Snapshot>, queues: seq<seq<OrderEnvelope>>) {
    |states| == |queues| + 1 && forall i :: 0 <= i < |queues| ==> states[i + 1] == Tick(states[i], m, queues[i])
  }

  /** What carries a run from tick to tick. */
  ghost predicate RunState(s: Snapshot, m: MapDefinition, threshold: nat) {
    StateInv(s, m) && NamesApart(s.players) && s.victory.threshold == threshold
  }

  lemma RunStep(s: Snapshot, m: MapDefinition, queue: seq<OrderEnvelope>, threshold: nat)
    requires RunState(s, m, threshold)
    ensures RunState(Tick(s, m, queue), m, threshold) && IncomeStorable(s)
  {
    TickKeepsInv(s, m, queue);
    TickKeepsAlliances(s, m, queue);
    SameAlliancesApart(s.players, Tick(s, m, queue).players);
  }

  lemma {:induction false} RunKeepsInv(m: MapDefinition, states: seq<Snapshot>, queues: seq<seq<OrderEnvelope>>, i: nat, threshold: nat)
    requires IsRun(m, states, queues) && RunState(states[0], m, threshold) && i < |states|
    ensures RunState(states[i], m, threshold)
  {
    if i > 0 {
      RunKeepsInv(m, states, queues, i - 1, threshold);
      RunStep(states[i - 1], m, queues[i - 1], threshold);
    }
  }

  lemma PassesAfterTick(s: Snapshot, m: MapDefinition, queue: seq<OrderEnvelope>, threshold: nat)
    requires RunState(s, m, threshold)
    ensures RegressionPasses(Tick(s, m, queue), m) <==> threshold <= |m.cities|
  {
    RunStep(s, m, queue, threshold);
    TickVictoryOk(s, m, queue);
    SameSize(Tick(s, m, queue).cities, m.cities);
    if threshold <= |m.cities| { InvariantPasses(Tick(s, m, queue), m); }
  }

  lemma SameSize<A, B>(a: map<CityId, A>, b: map<CityId, B>)
    requires a.Keys == b.Keys
    ensures |a| == |b|
  {
    assert |a.Keys| == |b.Keys|;
  }

  /**
   * Every state that a run reaches passes the harness's checks.
   * The one check a run cannot establish by itself is that the threshold fits the map: it passes exactly when
   * the match was set up that way.
   */
  lemma EveryTickPasses(m: MapDefinition, states: seq<Snapshot>, queues: seq<seq<OrderEnvelope>>, i: nat)
    requires IsRun(m, states, queues) && StateInv(states[0], m) && NamesApart(states[0].players)
    requires 0 < i < |states|
    ensures RegressionPasses(states[i], m) <==> states[0].victory.threshold <= |m.cities|
  {
    var threshold := states[0].victory.threshold;
    RunKeepsInv(m, states, queues, i - 1, threshold);
    PassesAfterTick(states[i - 1], m, queues[i - 1], threshold);
  }

  ghost predicate SpendingFits(s: Snapshot, m: MapDefinition, queue: seq<OrderEnvelope>) {
    forall p :: p in s.players ==> SpendingFitsIn(s, m, queue, p, Food) && SpendingFitsIn(s, m, queue, p, Money)
  }

  lemma SignOf(s: Snapshot, m: MapDefinition, queue: seq<OrderEnvelope>, p: PlayerId, r: Resource)
    requires p in s.players && !r.Production?
    ensures p in Tick(s, m, queue).players
    ensures 0 <= Tick(s, m, queue).players[p].resources.Get(r) <==> SpendingFitsIn(s, m, queue, p, r)
  {
    StaysInTheBlackIff(s, m, queue, p, r);
  }

  lemma SignsWhere(after: map<PlayerId, Player>, fits: (PlayerId, Resource) -> bool)
    requires forall p, r: Resource :: p in after && !r.Production? ==> (0 <= after[p].resources.Get(r) <==> fits(p, r))
    ensures (forall p :: p in after ==> 0 <= after[p].resources.food && 0 <= after[p].resources.money)
      <==> (forall p :: p in after ==> fits(p, Food) && fits(p, Money))
  {
    forall p | p in after
      ensures 0 <= after[p].resources.food <==> fits(p, Food)
      ensures 0 <= after[p].resources.money <==> fits(p, Money)
    {
      assert after[p].resources.Get(Food) == after[p].resources.food;
      assert after[p].resources.Get(Money) == after[p].resources.money;
    }
  }

  lemma SignsGiven(s: Snapshot, m: MapDefinition, queue: seq<OrderEnvelope>, t: Snapshot, fits: (PlayerId, Resource) -> bool)
    requires t.players.Keys == s.players.Keys
    requires forall p, r: Resource :: p in s.players ==> (SpendingFitsIn(s, m, queue, p, r) <==> fits(p, r))
    requires forall p, r: Resource :: p in s.players && !r.Production? ==> (0 <= t.players[p].resources.Get(r) <==> fits(p, r))
    ensures SignsPass(t) <==> SpendingFits(s, m, queue)
  {
    SignsWhere(t.players, fits);
    forall p | p in s.players
      ensures SpendingFitsIn(s, m, queue, p, Food) <==> fits(p, Food)
      ensures SpendingFitsIn(s, m, queue, p, Money) <==> fits(p, Money)
    {
    }
  }

  lemma SignsAfterTick(s: Snapshot, m: MapDefinition, queue: seq<OrderEnvelope>)
    ensures SignsPass(Tick(s, m, queue)) <==> SpendingFits(s, m, queue)
  {
    TickKeepsAlliances(s, m, queue);
    var fits := (p: PlayerId, r: Resource) => p in s.players && SpendingFitsIn(s, m, queue, p, r);
    forall p, r: Resource | p in s.players && !r.Production?
      ensures 0 <= Tick(s, m, queue).players[p].resources.Get(r) <==> fits(p, r)
    {
      SignOf(s, m, queue, p, r);
    }
    SignsGiven(s, m, queue, Tick(s, m, queue), fits);
  }

  /**
   * The whole verdict of the harness on a state that a run reaches: it passes exactly when the threshold fits the map and
   * in the tick that led there every player's accepted food and money spending fitted income and receipts.
   */
  lemma EveryTickVerdict(m: MapDefinition, states: seq<Snapshot>, queues: seq<seq<OrderEnvelope>>, i: nat)
    requires IsRun(m, states, queues) && StateInv(states[0], m) && NamesApart(states[0].players)
    requires 0 < i < |states|
    ensures HarnessPasses(states[i], m)
      <==> states[0].victory.threshold <= |m.cities| && SpendingFits(states[i - 1], m, queues[i - 1])
  {
    EveryTickPasses(m, states, queues, i);
    SignsAfterTick(states[i - 1], m, queues[i - 1]);
  }

  /** No tick of a run can fail, whatever is queued next. */
  lemma EveryTickResolves(m: MapDefinition, states: seq<Snapshot>, queues: seq<seq<OrderEnvelope>>, i: nat, queue: seq<OrderEnvelope>)
    requires IsRun(m, states, queues) && StateInv(states[0], m) && NamesApart(states[0].players) && i < |states|
    ensures TickFailure(states[i], QueuedBatch(states[i], m, queue)) == None
  {
    RunKeepsInv(m, states, queues, i, states[0].victory.threshold);
    TickKeepsInv(states[i], m, queue);
  }
}
