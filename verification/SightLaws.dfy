/** What a player is shown, in the map's own terms: allied cities, the cities an edge away, and the armies there. */
module SightLaws {
  import opened Collections
  import opened Ordering
  import opened Domain
  import opened Casualties
  import opened Phases
  import opened Fog

  /** The player itself, or somebody in the same alliance. */
  predicate Ally(s: Snapshot, p: PlayerId, q: PlayerId)
    requires p in s.players
  {
    q == p || (q in s.players && s.players[p].allianceId.Some? && s.players[q].allianceId == s.players[p].allianceId)
  }

  predicate AlliedCity(s: Snapshot, p: PlayerId, c: CityId)
    requires p in s.players
  {
    c in s.cities && s.cities[c].owner.Some? && Ally(s, p, s.cities[c].owner.value)
  }

  /** The city is allied, or an edge of the map joins it to one that is. */
  ghost predicate WithinReach(s: Snapshot, m: MapDefinition, p: PlayerId, c: CityId)
    requires p in s.players
  {
    AlliedCity(s, p, c)
    || exists e :: e in m.edges && ((e.cityA == c && AlliedCity(s, p, e.cityB)) || (e.cityB == c && AlliedCity(s, p, e.cityA)))
  }

  lemma AlliesAre(s: Snapshot, p: PlayerId)
    requires p in s.players
    ensures forall q :: q in Allies(s, p) <==> Ally(s, p, q)
    ensures forall c :: c in FullCities(s, Allies(s, p)) <==> AlliedCity(s, p, c)
  {
  }

  lemma ReachIsSight(s: Snapshot, m: MapDefinition, p: PlayerId, c: CityId)
    requires p in s.players
    ensures InSight(s, m, Allies(s, p), c) <==> WithinReach(s, m, p, c)
  {
    AlliesAre(s, p);
    if WithinReach(s, m, p, c) && !AlliedCity(s, p, c) {
      var e :| e in m.edges && ((e.cityA == c && AlliedCity(s, p, e.cityB)) || (e.cityB == c && AlliedCity(s, p, e.cityA)));
      assert Adjacent(m, if e.cityA == c && AlliedCity(s, p, e.cityB) then e.cityB else e.cityA, c);
    }
    if InSight(s, m, Allies(s, p), c) && !AlliedCity(s, p, c) {
      var d :| d in FullCities(s, Allies(s, p)) && Adjacent(m, d, c);
      var e :| e in m.edges && Joins(e, d, c);
    }
  }

  /**
   * The cities shown are the known ones within reach, each with its owner; an allied city with all there is to know of it, any
   * other with nothing more.
   */
  lemma CitiesShown(s: Snapshot, m: MapDefinition, p: PlayerId, matchId: string, c: CityId)
    requires p in s.players
    ensures var shown := Projected(s, m, p, matchId).cities;
      && (c in shown <==> c in s.cities && WithinReach(s, m, p, c))
      && (c in shown ==> shown[c].owner == s.cities[c].owner && (shown[c].full <==> AlliedCity(s, p, c)))
      && (c in shown && AlliedCity(s, p, c) ==> shown[c].details == Known(CityDetails(s.cities[c].population, s.cities[c].base,
            s.cities[c].upgrades, s.cities[c].garrison, s.cities[c].queue)))
      && (c in shown && !AlliedCity(s, p, c) ==> shown[c].details == Unknown)
  {
    AlliesAre(s, p);
    ReachIsSight(s, m, p, c);
  }

  /** An ally's army, or one that stands in a city within reach or is heading there. */
  ghost predicate ArmyInReach(s: Snapshot, m: MapDefinition, p: PlayerId, a: Army)
    requires p in s.players
  {
    || Ally(s, p, a.owner)
    || (exists c :: a.location == Some(c) && WithinReach(s, m, p, c))
    || (exists c :: a.destination == Some(c) && WithinReach(s, m, p, c))
  }

  lemma ReachIsSeen(s: Snapshot, m: MapDefinition, p: PlayerId, a: Army)
    requires p in s.players
    ensures ArmySeen(s, m, Allies(s, p), a) <==> ArmyInReach(s, m, p, a)
  {
    AlliesAre(s, p);
    if a.location.Some? { ReachIsSight(s, m, p, a.location.value); }
    if a.destination.Some? { ReachIsSight(s, m, p, a.destination.value); }
  }

  /** Every army in reach is listed, an ally's with its strength and route, any other without. */
  lemma ArmyListed(s: Snapshot, m: MapDefinition, p: PlayerId, matchId: string, a: Army)
    requires p in s.players && a in s.armies && ArmyInReach(s, m, p, a)
    ensures (if Ally(s, p, a.owner)
      then ArmyView(a.id, a.owner, true, Known(a.troops), a.location, a.destination, Known(a.path), a.ticksRemaining)
      else ArmyView(a.id, a.owner, false, Unknown, a.location, a.destination,
                    if a.path.Some? then Unknown else Known(None), a.ticksRemaining)) in Projected(s, m, p, matchId).armies
  {
    AlliesAre(s, p);
    ReachIsSeen(s, m, p, a);
    IdOrderIsTotal();
    SortSorts(ID_ORDER, s.armies);
    var sorted := Sort(ID_ORDER, s.armies);
    assert a in multiset(sorted);
    assert SeenArmy(s, m, Allies(s, p))(a) == Some(ViewArmy(a, a.owner in Allies(s, p)));
    FilterMapMember(SeenArmy(s, m, Allies(s, p)), sorted, ViewArmy(a, a.owner in Allies(s, p)));
  }

  /** And nothing is listed but armies in reach. */
  lemma ListedIsInReach(s: Snapshot, m: MapDefinition, p: PlayerId, matchId: string, v: ArmyView) returns (a: Army)
    requires p in s.players && v in Projected(s, m, p, matchId).armies
    ensures a in s.armies && ArmyInReach(s, m, p, a)
    ensures v.id == a.id && v.owner == a.owner && v.location == a.location && v.destination == a.destination
    ensures v.troops == if Ally(s, p, a.owner) then Known(a.troops) else Unknown
    ensures v.path == if Ally(s, p, a.owner) || a.path.None? then Known(a.path) else Unknown
    ensures v.full == Ally(s, p, a.owner) && v.ticksRemaining == a.ticksRemaining
  {
    AlliesAre(s, p);
    IdOrderIsTotal();
    SortSorts(ID_ORDER, s.armies);
    var sorted := Sort(ID_ORDER, s.armies);
    FilterMapMember(SeenArmy(s, m, Allies(s, p)), sorted, v);
    a :| a in sorted && SeenArmy(s, m, Allies(s, p))(a) == Some(v);
    assert a in multiset(s.armies);
    ReachIsSeen(s, m, p, a);
  }

  /** The rest of the projection is the player's own: its resources, its alliance and who is in it, the clock and the record. */
  lemma RestShown(s: Snapshot, m: MapDefinition, p: PlayerId, matchId: string)
    requires p in s.players
    ensures var shown := Projected(s, m, p, matchId);
      && shown.matchId == matchId && shown.playerId == p && shown.tick == s.tick && shown.victory == s.victory
      && shown.resources == s.players[p].resources && shown.allianceId == s.players[p].allianceId
      && Distinct(shown.members) && (forall q :: q in shown.members <==> Ally(s, p, q))
      && SortedBy(STRING_ORDER, shown.members)
  {
    AlliesAre(s, p);
    ListingSorted(Allies(s, p));
    forall q ensures q in Listing(Allies(s, p)) <==> q in Allies(s, p) { assert q in Elements(Listing(Allies(s, p))) <==> q in Allies(s, p); }
  }
}
