/** Step facts for the siege and attrition loops. */
module AttritionFacts {
  import opened Collections
  import opened Domain
  import opened Phases

  ghost predicate OwnersKnown(s: Snapshot) {
    forall c :: c in s.cities && s.cities[c].owner.Some? ==> s.cities[c].owner.value in s.players
  }

  // ---- siege ----

  /** The `done` cities have been checked; fortification is all that changed so far. */
  ghost predicate SiegeDone(s: Snapshot, m: MapDefinition, cities: map<CityId, City>, degraded: set<CityId>, done: set<CityId>) {
    && cities.Keys == s.cities.Keys
    && (forall c :: c in cities ==> cities[c] == if c in done && c in SiegeDegraded(s, m) then Weaken(s.cities[c]) else s.cities[c])
    && (forall c :: c in degraded <==> c in done && c in SiegeDegraded(s, m))
  }

  /** Sieges look only at owners, which the loop leaves alone. */
  lemma SiegeUnderWay(s: Snapshot, m: MapDefinition, cities: map<CityId, City>, degraded: set<CityId>, done: set<CityId>, c: CityId)
    requires SiegeDone(s, m, cities, degraded, done) && c in s.cities && c !in done && OwnersKnown(s)
    ensures cities[c] == s.cities[c]
    ensures OwnersKnown(s.(cities := cities))
    ensures Besieged(s.(cities := cities), m, c) <==> Besieged(s, m, c)
    ensures c in SiegeDegraded(s, m) <==> s.cities[c].upgrades.fortification > 0 && Besieged(s, m, c)
  {
    forall x | x in cities ensures cities[x].owner == s.cities[x].owner { }
  }

  lemma SiegeComplete(s: Snapshot, m: MapDefinition, cities: map<CityId, City>, degraded: set<CityId>)
    requires SiegeDone(s, m, cities, degraded, s.cities.Keys)
    ensures cities == SiegePhase(s, m).cities && degraded == SiegeDegraded(s, m)
  {
  }

  // ---- who is still present ----

  ghost predicate HoldsWithin(cities: map<CityId, City>, seen: set<CityId>, p: PlayerId) {
    exists c :: c in seen && c in cities && cities[c].owner == Some(p)
  }

  /** Owned-city counts, of which only "none" matters. */
  method OwnersOfCities(cities: map<CityId, City>, players: set<PlayerId>) returns (counts: map<PlayerId, nat>)
    ensures counts.Keys == players
    ensures forall p :: p in players ==> (counts[p] == 0 <==> !exists c :: c in cities && cities[c].owner == Some(p))
  {
    counts := map p | p in players :: 0;
    var todo := cities.Keys;
    ghost var seen: set<CityId> := {};
    while todo != {}
      invariant todo <= cities.Keys && counts.Keys == players
      invariant seen !! todo && cities.Keys <= seen + todo
      invariant forall p :: p in players ==> (counts[p] == 0 <==> !HoldsWithin(cities, seen, p))
    {
      var c :| c in todo;
      ghost var before := seen;
      todo := todo - {c};
      seen := seen + {c};
      forall p ensures HoldsWithin(cities, seen, p) <==> HoldsWithin(cities, before, p) || cities[c].owner == Some(p) {
        if cities[c].owner == Some(p) { assert c in seen; }
      }
      if cities[c].owner.Some? && cities[c].owner.value in counts {
        counts := counts[cities[c].owner.value := counts[cities[c].owner.value] + 1];
      }
    }
    forall p | p in players
      ensures HoldsWithin(cities, seen, p) <==> exists c :: c in cities && cities[c].owner == Some(p)
    {
    }
  }

  method OwnersOfArmies(armies: seq<Army>, players: set<PlayerId>) returns (counts: map<PlayerId, nat>)
    ensures counts.Keys == players
    ensures forall p :: p in players ==> (counts[p] == 0 <==> !exists a :: a in armies && a.owner == p)
  {
    counts := map p | p in players :: 0;
    var i := 0;
    while i < |armies|
      invariant 0 <= i <= |armies| && counts.Keys == players
      invariant forall p :: p in players ==> (counts[p] == 0 <==> forall k :: 0 <= k < i ==> armies[k].owner != p)
    {
      if armies[i].owner in counts {
        counts := counts[armies[i].owner := counts[armies[i].owner] + 1];
      }
      i := i + 1;
    }
  }
}
