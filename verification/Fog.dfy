/** The fog-of-war projection: what a player is shown, and that nothing else can influence it. */
module Fog {
  import opened Collections
  import opened Ordering
  import opened Domain
  import opened Casualties
  import opened Phases
  import opened ResourceSteps
  import opened SiegeSteps

  datatype Shown<+T> = Known(value: T) | Unknown

  datatype CityDetails = CityDetails(population: nat, base: Resources, upgrades: Upgrades, garrison: nat, queue: seq<QueueItem>)
  datatype CityView = CityView(owner: Option<PlayerId>, full: bool, details: Shown<CityDetails>)

  datatype ArmyView = ArmyView(
    id: ArmyId, owner: PlayerId, full: bool, troops: Shown<int>,
    location: Option<CityId>, destination: Option<CityId>, path: Shown<Option<seq<CityId>>>, ticksRemaining: int)

  datatype Projection = Projection(
    matchId: string, tick: nat, playerId: PlayerId, resources: Resources,
    cities: map<CityId, CityView>, armies: seq<ArmyView>,
    allianceId: Option<string>, members: seq<PlayerId>, victory: Victory)

  // ---- what is visible ----

  ghost function Allies(s: Snapshot, p: PlayerId): set<PlayerId>
    requires p in s.players
  {
    if s.players[p].allianceId == None then {p}
    else set q | q in s.players && s.players[q].allianceId == s.players[p].allianceId
  }

  ghost function FullCities(s: Snapshot, allies: set<PlayerId>): set<CityId> {
    set c | c in s.cities && s.cities[c].owner.Some? && s.cities[c].owner.value in allies
  }

  /** Allied cities and their neighbours on the map. */
  ghost predicate InSight(s: Snapshot, m: MapDefinition, allies: set<PlayerId>, c: CityId) {
    c in FullCities(s, allies) || exists d :: d in FullCities(s, allies) && Adjacent(m, d, c)
  }

  function DetailsOf(city: City): CityDetails {
    CityDetails(city.population, city.base, city.upgrades, city.garrison, city.queue)
  }

  function ViewCity(city: City, full: bool): CityView {
    CityView(city.owner, full, if full then Known(DetailsOf(city)) else Unknown)
  }

  ghost predicate ArmySeen(s: Snapshot, m: MapDefinition, allies: set<PlayerId>, a: Army) {
    || a.owner in allies
    || (a.location.Some? && InSight(s, m, allies, a.location.value))
    || (a.destination.Some? && InSight(s, m, allies, a.destination.value))
  }

  function ViewArmy(a: Army, full: bool): ArmyView {
    if full then ArmyView(a.id, a.owner, true, Known(a.troops), a.location, a.destination, Known(a.path), a.ticksRemaining)
    else ArmyView(a.id, a.owner, false, Unknown, a.location, a.destination, if a.path.Some? then Unknown else Known(None), a.ticksRemaining)
  }

  ghost function SeenArmy(s: Snapshot, m: MapDefinition, allies: set<PlayerId>): Army -> Option<ArmyView> {
    (a: Army) => if ArmySeen(s, m, allies, a) then Some(ViewArmy(a, a.owner in allies)) else None
  }

  ghost function CityViews(s: Snapshot, m: MapDefinition, allies: set<PlayerId>): map<CityId, CityView> {
    map c | c in s.cities && InSight(s, m, allies, c) :: ViewCity(s.cities[c], c in FullCities(s, allies))
  }

  ghost function ArmyViews(s: Snapshot, m: MapDefinition, allies: set<PlayerId>): seq<ArmyView> {
    FilterMap(SeenArmy(s, m, allies), Sort(ID_ORDER, s.armies))
  }

  ghost function Projected(s: Snapshot, m: MapDefinition, p: PlayerId, matchId: string): Projection
    requires p in s.players
  {
    Projection(matchId, s.tick, p, s.players[p].resources, CityViews(s, m, Allies(s, p)), ArmyViews(s, m, Allies(s, p)),
               s.players[p].allianceId, Listing(Allies(s, p)), s.victory)
  }

  // ---- the projection, computed ----

  method AlliedPlayerIds(s: Snapshot, p: PlayerId) returns (allies: set<PlayerId>)
    requires p in s.players
    ensures allies == Allies(s, p)
  {
    var alliance := s.players[p].allianceId;
    if alliance == None {
      return {p};
    }
    allies := set q | q in s.players && s.players[q].allianceId == alliance;
  }

  method AdjacentCityIds(ids: set<CityId>, m: MapDefinition) returns (adjacent: set<CityId>)
    ensures forall c :: c in adjacent <==> exists d :: d in ids && Adjacent(m, d, c)
  {
    var byCity := AdjacentCityIdsByCity(m);
    adjacent := {};
    var todo := ids;
    while todo != {}
      invariant todo <= ids
      invariant forall c :: c in adjacent <==> exists d :: d in ids - todo && Linked(byCity, d, c)
    {
      var d :| d in todo;
      ghost var before := adjacent;
      if d in byCity {
        adjacent := adjacent + byCity[d];
      }
      todo := todo - {d};
      forall c ensures c in adjacent <==> exists x :: x in ids - todo && Linked(byCity, x, c) {
        assert c in adjacent <==> c in before || Linked(byCity, d, c);
      }
    }
    forall c ensures c in adjacent <==> exists d :: d in ids && Adjacent(m, d, c) {
      if d :| d in ids && Adjacent(m, d, c) { assert Linked(byCity, d, c) && d in ids - todo; }
      if c in adjacent {
        var d :| d in ids - todo && Linked(byCity, d, c);
        assert Adjacent(m, d, c);
      }
    }
  }

  method ArmyIsVisible(a: Army, allies: set<PlayerId>, visible: set<CityId>) returns (seen: bool)
    ensures seen <==>
      || a.owner in allies
      || (a.location.Some? && a.location.value in visible)
      || (a.destination.Some? && a.destination.value in visible)
  {
    if a.owner in allies {
      return true;
    }
    if a.location.Some? && a.location.value in visible {
      return true;
    }
    seen := a.destination.Some? && a.destination.value in visible;
  }

  method ProjectArmies(s: Snapshot, allies: set<PlayerId>, visible: set<CityId>, ghost m: MapDefinition) returns (views: seq<ArmyView>)
    requires forall c :: c in visible <==> InSight(s, m, allies, c)
    ensures views == ArmyViews(s, m, allies)
  {
    var sorted := Sort(ID_ORDER, s.armies);
    views := [];
    var i := 0;
    while i < |sorted|
      invariant 0 <= i <= |sorted| && views == FilterMap(SeenArmy(s, m, allies), sorted[..i])
    {
      FilterMapStep(SeenArmy(s, m, allies), sorted, i);
      var seen := ArmyIsVisible(sorted[i], allies, visible);
      if seen {
        views := views + [ViewArmy(sorted[i], sorted[i].owner in allies)];
      }
      i := i + 1;
    }
    assert sorted[..i] == sorted;
  }

  method ProjectAgentState(s: Snapshot, m: MapDefinition, p: PlayerId, matchId: string) returns (result: Option<Projection>)
    ensures result == if p in s.players then Some(Projected(s, m, p, matchId)) else None
  {
    if p !in s.players {
      return None;
    }
    var allies := AlliedPlayerIds(s, p);
    var full := set c | c in s.cities && s.cities[c].owner.Some? && s.cities[c].owner.value in allies;
    var adjacent := AdjacentCityIds(full, m);
    assert full == FullCities(s, allies);
    var visible := full + adjacent;
    assert forall c :: c in visible <==> InSight(s, m, allies, c);
    var cities := map c | c in s.cities && c in visible :: ViewCity(s.cities[c], c in full);
    assert cities == CityViews(s, m, allies);
    var armies := ProjectArmies(s, allies, visible, m);
    var listed := ListIds(allies);
    var members := SortIds(listed);
    result := Some(Projection(matchId, s.tick, p, s.players[p].resources, cities, armies, s.players[p].allianceId, members, s.victory));
  }

  // ---- sight ----

  /** More allies never hide anything: cities in sight stay in sight, and armies seen stay seen. */
  lemma SightIsMonotone(s: Snapshot, m: MapDefinition, few: set<PlayerId>, many: set<PlayerId>)
    requires few <= many
    ensures forall c :: InSight(s, m, few, c) ==> InSight(s, m, many, c)
    ensures forall a :: ArmySeen(s, m, few, a) ==> ArmySeen(s, m, many, a)
    ensures forall v :: v in ArmyViews(s, m, few) ==> exists w :: w in ArmyViews(s, m, many) && w.id == v.id
  {
    assert FullCities(s, few) <= FullCities(s, many);
    var sorted := Sort(ID_ORDER, s.armies);
    forall v | v in ArmyViews(s, m, few) ensures exists w :: w in ArmyViews(s, m, many) && w.id == v.id {
      FilterMapMember(SeenArmy(s, m, few), sorted, v);
      var a :| a in sorted && SeenArmy(s, m, few)(a) == Some(v);
      var w := ViewArmy(a, a.owner in many);
      assert SeenArmy(s, m, many)(a) == Some(w);
      FilterMapMember(SeenArmy(s, m, many), sorted, w);
    }
  }

  /** Whether an army is seen depends on where it is and whose it is, not on its troops or the route it takes. */
  lemma SightIgnoresStrength(s: Snapshot, m: MapDefinition, allies: set<PlayerId>, a: Army, troops: int, path: Option<seq<CityId>>)
    ensures ArmySeen(s, m, allies, a) <==> ArmySeen(s, m, allies, a.(troops := troops, path := path))
    ensures ArmySeen(s, m, allies, a) && a.owner !in allies && (a.path.Some? <==> path.Some?) ==>
      SeenArmy(s, m, allies)(a) == SeenArmy(s, m, allies)(a.(troops := troops, path := path))
  {
  }

  // ---- what the projection depends on ----

  /** Two armies alike in all that a foreign observer is shown. */
  predicate LooksLike(a: Army, b: Army) {
    && a.id == b.id && a.owner == b.owner && a.location == b.location && a.destination == b.destination
    && a.ticksRemaining == b.ticksRemaining && (a.path.Some? <==> b.path.Some?)
  }

  ghost predicate HasMatch(a: Army, t: Snapshot, m: MapDefinition, allies: set<PlayerId>) {
    if a.owner in allies then a in t.armies
    else exists b :: b in t.armies && ArmySeen(t, m, allies, b) && LooksLike(a, b)
  }

  /**
   * The states agree on the player's own resources and alliance, on allied cities and armies in full, on the owners of
   * neighbouring cities, on the shown fields of visible foreign armies, and on the clock and the victory record.
   */
  ghost predicate SameToPlayer(s: Snapshot, t: Snapshot, m: MapDefinition, p: PlayerId)
    requires p in s.players && p in t.players
  {
    var allies := Allies(s, p);
    && s.tick == t.tick && s.victory == t.victory
    && s.players[p].resources == t.players[p].resources && s.players[p].allianceId == t.players[p].allianceId
    && Allies(t, p) == allies && FullCities(t, allies) == FullCities(s, allies)
    && (forall c :: c in FullCities(s, allies) ==> s.cities[c] == t.cities[c])
    && (forall c :: InSight(s, m, allies, c) ==>
          (c in s.cities <==> c in t.cities) && (c in s.cities ==> s.cities[c].owner == t.cities[c].owner))
    && (forall a :: a in s.armies && ArmySeen(s, m, allies, a) ==> HasMatch(a, t, m, allies))
    && (forall a :: a in t.armies && ArmySeen(t, m, allies, a) ==> HasMatch(a, s, m, allies))
  }

  ghost predicate StrictlyById(views: seq<ArmyView>) {
    forall i, j :: 0 <= i < j < |views| ==> StrLe(views[i].id, views[j].id) && views[i].id != views[j].id
  }

  /** Two lists in strict id order with the same members are the same list. */
  lemma {:induction false} StrictListsAgree(xs: seq<ArmyView>, ys: seq<ArmyView>)
    requires StrictlyById(xs) && StrictlyById(ys) && forall v :: v in xs <==> v in ys
    ensures xs == ys
  {
    assert ys != [] ==> ys[0] in ys;
    if xs != [] {
      assert xs[0] in ys && ys[0] in xs;
      var i :| 0 <= i < |ys| && ys[i] == xs[0];
      var j :| 0 <= j < |xs| && xs[j] == ys[0];
      if i > 0 && j > 0 { StrLeAntisymmetric(xs[0].id, ys[0].id); }
      assert xs[0] == ys[0];
      forall v ensures v in xs[1..] <==> v in ys[1..] {
        if v in xs[1..] {
          var k :| 1 <= k < |xs| && xs[k] == v;
          assert v in ys && v.id != ys[0].id;
        }
        if v in ys[1..] {
          var k :| 1 <= k < |ys| && ys[k] == v;
          assert v in xs && v.id != xs[0].id;
        }
      }
      StrictListsAgree(xs[1..], ys[1..]);
    }
  }

  lemma {:induction false} SeenInOrder(f: Army -> Option<ArmyView>, armies: seq<Army>)
    requires forall i, j :: 0 <= i < j < |armies| ==> StrLe(armies[i].id, armies[j].id) && armies[i].id != armies[j].id
    requires forall a :: a in armies && f(a).Some? ==> f(a).value.id == a.id
    ensures StrictlyById(FilterMap(f, armies))
  {
    if armies != [] {
      var init, last := armies[..|armies| - 1], armies[|armies| - 1];
      assert last in armies;
      SeenInOrder(f, init);
      var views := FilterMap(f, init);
      forall i | 0 <= i < |views| ensures StrLe(views[i].id, last.id) && views[i].id != last.id {
        FilterMapMember(f, init, views[i]);
        var a :| a in init && f(a) == Some(views[i]);
        var k :| 0 <= k < |init| && init[k] == a;
        assert armies[k] == a;
      }
    }
  }

  lemma ViewsInOrder(s: Snapshot, m: MapDefinition, allies: set<PlayerId>)
    requires UniqueIds(s.armies)
    ensures StrictlyById(ArmyViews(s, m, allies))
    ensures forall v :: v in ArmyViews(s, m, allies) <==>
      exists a :: a in s.armies && ArmySeen(s, m, allies, a) && ViewArmy(a, a.owner in allies) == v
  {
    var sorted := Sort(ID_ORDER, s.armies);
    IdOrderIsTotal();
    SortSorts(ID_ORDER, s.armies);
    UniqueIdsPermute(s.armies, sorted);
    forall i, j | 0 <= i < j < |sorted| ensures StrLe(sorted[i].id, sorted[j].id) { assert ID_ORDER(sorted[i], sorted[j]); }
    SeenInOrder(SeenArmy(s, m, allies), sorted);
    forall v ensures v in ArmyViews(s, m, allies) <==>
      exists a :: a in s.armies && ArmySeen(s, m, allies, a) && ViewArmy(a, a.owner in allies) == v
    {
      FilterMapMember(SeenArmy(s, m, allies), sorted, v);
    }
  }

  lemma SightAgrees(s: Snapshot, t: Snapshot, m: MapDefinition, allies: set<PlayerId>)
    requires FullCities(t, allies) == FullCities(s, allies)
    ensures forall c :: InSight(t, m, allies, c) <==> InSight(s, m, allies, c)
    ensures forall a :: ArmySeen(t, m, allies, a) <==> ArmySeen(s, m, allies, a)
  {
  }

  ghost predicate ArmiesMatch(s: Snapshot, t: Snapshot, m: MapDefinition, allies: set<PlayerId>) {
    forall a :: a in s.armies && ArmySeen(s, m, allies, a) ==> HasMatch(a, t, m, allies)
  }

  lemma MatchedViews(s: Snapshot, t: Snapshot, m: MapDefinition, allies: set<PlayerId>)
    requires UniqueIds(s.armies) && UniqueIds(t.armies) && ArmiesMatch(s, t, m, allies)
    requires FullCities(t, allies) == FullCities(s, allies)
    ensures forall v :: v in ArmyViews(s, m, allies) ==> v in ArmyViews(t, m, allies)
  {
    SightAgrees(s, t, m, allies);
    ViewsInOrder(s, m, allies);
    ViewsInOrder(t, m, allies);
    forall v | v in ArmyViews(s, m, allies) ensures v in ArmyViews(t, m, allies) {
      var a :| a in s.armies && ArmySeen(s, m, allies, a) && ViewArmy(a, a.owner in allies) == v;
      assert HasMatch(a, t, m, allies);
      if a.owner !in allies {
        var b :| b in t.armies && ArmySeen(t, m, allies, b) && LooksLike(a, b);
        assert ViewArmy(b, b.owner in allies) == v;
      }
    }
  }

  lemma ViewsMatch(s: Snapshot, t: Snapshot, m: MapDefinition, allies: set<PlayerId>)
    requires UniqueIds(s.armies) && UniqueIds(t.armies)
    requires forall v :: v in ArmyViews(s, m, allies) ==> v in ArmyViews(t, m, allies)
    ensures ArmiesMatch(s, t, m, allies)
  {
    ViewsInOrder(s, m, allies);
    ViewsInOrder(t, m, allies);
    forall a | a in s.armies && ArmySeen(s, m, allies, a) ensures HasMatch(a, t, m, allies) {
      var v := ViewArmy(a, a.owner in allies);
      assert v in ArmyViews(t, m, allies);
      var b :| b in t.armies && ArmySeen(t, m, allies, b) && ViewArmy(b, b.owner in allies) == v;
      assert a.owner == b.owner;
      if a.owner in allies { assert a == b; } else { assert LooksLike(a, b); }
    }
  }

  lemma SameCitiesFrom(s: Snapshot, t: Snapshot, m: MapDefinition, allies: set<PlayerId>)
    requires FullCities(t, allies) == FullCities(s, allies)
    requires forall c :: c in FullCities(s, allies) ==> s.cities[c] == t.cities[c]
    requires forall c :: InSight(s, m, allies, c) ==>
      (c in s.cities <==> c in t.cities) && (c in s.cities ==> s.cities[c].owner == t.cities[c].owner)
    ensures CityViews(s, m, allies) == CityViews(t, m, allies)
  {
    SightAgrees(s, t, m, allies);
  }

  lemma SameCitiesTo(s: Snapshot, t: Snapshot, m: MapDefinition, allies: set<PlayerId>)
    requires CityViews(s, m, allies) == CityViews(t, m, allies)
    ensures FullCities(t, allies) == FullCities(s, allies)
    ensures forall c :: c in FullCities(s, allies) ==> s.cities[c] == t.cities[c]
    ensures forall c :: InSight(s, m, allies, c) ==>
      (c in s.cities <==> c in t.cities) && (c in s.cities ==> s.cities[c].owner == t.cities[c].owner)
  {
    forall c ensures c in FullCities(s, allies) <==> c in CityViews(s, m, allies) && CityViews(s, m, allies)[c].full { }
    forall c ensures c in FullCities(t, allies) <==> c in CityViews(t, m, allies) && CityViews(t, m, allies)[c].full { }
    SightAgrees(s, t, m, allies);
    forall c | c in FullCities(s, allies) ensures s.cities[c] == t.cities[c] {
      assert CityViews(s, m, allies)[c] == CityViews(t, m, allies)[c];
      assert DetailsOf(s.cities[c]) == DetailsOf(t.cities[c]);
    }
    forall c | InSight(s, m, allies, c)
      ensures (c in s.cities <==> c in t.cities) && (c in s.cities ==> s.cities[c].owner == t.cities[c].owner)
    {
      assert c in CityViews(s, m, allies) <==> c in CityViews(t, m, allies);
      if c in s.cities { assert CityViews(s, m, allies)[c] == CityViews(t, m, allies)[c]; }
    }
  }

  /** Two states look the same to a player exactly when they agree on what the player may see: nothing hidden leaks. */
  lemma ProjectionsEqualIff(s: Snapshot, t: Snapshot, m: MapDefinition, p: PlayerId, matchId: string)
    requires p in s.players && p in t.players && UniqueIds(s.armies) && UniqueIds(t.armies)
    ensures Projected(s, m, p, matchId) == Projected(t, m, p, matchId) <==> SameToPlayer(s, t, m, p)
  {
    var allies := Allies(s, p);
    if SameToPlayer(s, t, m, p) {
      SameCitiesFrom(s, t, m, allies);
      MatchedViews(s, t, m, allies);
      MatchedViews(t, s, m, allies);
      ViewsInOrder(s, m, allies);
      ViewsInOrder(t, m, allies);
      StrictListsAgree(ArmyViews(s, m, allies), ArmyViews(t, m, allies));
    }
    if Projected(s, m, p, matchId) == Projected(t, m, p, matchId) {
      ListingSorted(allies);
      ListingSorted(Allies(t, p));
      assert Allies(t, p) == allies;
      SameCitiesTo(s, t, m, allies);
      ViewsMatch(s, t, m, allies);
      ViewsMatch(t, s, m, allies);
    }
  }

  /** Members of one alliance are shown the same cities, armies and fellow members. */
  lemma AlliesSeeTheSame(s: Snapshot, m: MapDefinition, p: PlayerId, q: PlayerId, matchId: string)
    requires p in s.players && q in s.players
    requires s.players[p].allianceId.Some? && s.players[p].allianceId == s.players[q].allianceId
    ensures var mine, theirs := Projected(s, m, p, matchId), Projected(s, m, q, matchId);
      mine == theirs.(playerId := p, resources := s.players[p].resources)
  {
    assert Allies(s, p) == Allies(s, q);
  }
}
