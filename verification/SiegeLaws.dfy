/** Which cities are besieged, edge by edge, and what a siege takes. */
module SiegeLaws {
  import opened Domain
  import opened Leadership
  import opened Phases

  /** The same player, or two players of one alliance. */
  predicate Friends(s: Snapshot, p: PlayerId, q: PlayerId) {
    p == q || (p in s.players && q in s.players && s.players[p].allianceId.Some? && s.players[p].allianceId == s.players[q].allianceId)
  }

  ghost predicate LeadsTo(m: MapDefinition, c: CityId, n: CityId) {
    exists e :: e in m.edges && ((e.cityA == c && e.cityB == n) || (e.cityB == c && e.cityA == n))
  }

  /** An owned city with roads, none of which leads to a city of its owner or of its owner's alliance. */
  ghost predicate CutOff(s: Snapshot, m: MapDefinition, c: CityId) {
    && c in s.cities && s.cities[c].owner.Some?
    && (exists n :: LeadsTo(m, c, n))
    && forall n :: LeadsTo(m, c, n) && n in s.cities && s.cities[n].owner.Some? ==> !Friends(s, s.cities[n].owner.value, s.cities[c].owner.value)
  }

  lemma LeadsToIsAdjacent(m: MapDefinition, c: CityId, n: CityId)
    ensures LeadsTo(m, c, n) <==> Adjacent(m, c, n)
  {
  }

  lemma BesiegedIsCutOff(s: Snapshot, m: MapDefinition, c: CityId)
    requires c in s.cities
    ensures Besieged(s, m, c) <==> CutOff(s, m, c)
  {
    forall n ensures LeadsTo(m, c, n) <==> Adjacent(m, c, n) { LeadsToIsAdjacent(m, c, n); }
    forall p, q ensures CoalitionOf(s.players, p) == CoalitionOf(s.players, q) <==> Friends(s, p, q) { }
  }

  /** A siege takes one tier from every walled city that is cut off, and nothing else from any city. */
  lemma SiegeTakesATier(s: Snapshot, m: MapDefinition, c: CityId)
    requires c in s.cities
    ensures c in SiegePhase(s, m).cities
    ensures var before, after := s.cities[c], SiegePhase(s, m).cities[c];
      var tier := before.upgrades.fortification;
      after == before.(upgrades := Upgrades(before.upgrades.economy, before.upgrades.military,
                                            if tier > 0 && CutOff(s, m, c) then tier - 1 else tier))
  {
    BesiegedIsCutOff(s, m, c);
  }
}
