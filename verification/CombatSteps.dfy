/** The loops of the combat phase: grouping by owner, strengths, casualties, losses. */
module CombatSteps {
  import opened Collections
  import opened Domain
  import opened Casualties
  import opened Phases
  import opened CombatFacts

  method ArmiesByOwner(armies: seq<Army>) returns (groups: map<PlayerId, seq<Army>>)
    ensures groups.Keys == set a | a in armies :: a.owner
    ensures forall p :: p in groups ==> groups[p] == Filter(OwnedBy(p), armies)
  {
    groups := map[];
    var i := 0;
    while i < |armies|
      invariant 0 <= i <= |armies|
      invariant forall p :: Filter(OwnedBy(p), armies[..i]) == if p in groups then groups[p] else []
      invariant forall p :: p in groups ==> groups[p] != []
    {
      var army := armies[i];
      var earlier := if army.owner in groups then groups[army.owner] else [];
      ghost var before := groups;
      groups := groups[army.owner := earlier + [army]];
      forall p ensures Filter(OwnedBy(p), armies[..i + 1]) == if p in groups then groups[p] else [] {
        FilterStep(OwnedBy(p), armies, i);
      }
      i := i + 1;
    }
    assert armies[..i] == armies;
    forall p ensures p in groups <==> exists a :: a in armies && a.owner == p {
      if p in groups { FilterMember(OwnedBy(p), armies, groups[p][0]); } else { OwnersAmong(armies, p); }
    }
  }

  lemma OwnersAmong(armies: seq<Army>, p: PlayerId)
    requires Filter(OwnedBy(p), armies) == []
    ensures forall a :: a in armies ==> a.owner != p
  {
    forall a | a in armies ensures a.owner != p { FilterMember(OwnedBy(p), armies, a); }
  }

  /** The strengths of everybody but one. */
  method SumOthers(strengths: map<PlayerId, int>, p: PlayerId) returns (total: int)
    ensures total == SumMap(strengths - {p})
  {
    total := 0;
    var todo := strengths.Keys;
    assert strengths - {p} - todo == map[];
    while todo != {}
      invariant todo <= strengths.Keys
      invariant total == SumMap(strengths - {p} - todo)
    {
      var q :| q in todo;
      if q != p {
        assert strengths - {p} - (todo - {q}) == (strengths - {p} - todo)[q := strengths[q]];
        SumMapAdd(strengths - {p} - todo, q, strengths[q]);
        total := total + strengths[q];
      } else {
        assert strengths - {p} - (todo - {q}) == strengths - {p} - todo;
      }
      todo := todo - {q};
    }
    assert strengths - {p} - todo == strengths - {p};
  }

  /** How strongly each group of a city fights. */
  function GroupStrength(groups: map<PlayerId, seq<Army>>, cityOwner: Option<PlayerId>, fortification: Tier): PlayerId -> int {
    (p: PlayerId) =>
      if p in groups then EffectiveStrength(SumBy(TROOPS, groups[p]), cityOwner == Some(p), fortification) else 0
  }

  /** What a group faces: the strength of all the others together. */
  ghost function Facing(groups: map<PlayerId, seq<Army>>, strength: PlayerId -> int, p: PlayerId): int {
    SumOver(strength, groups.Keys - {p})
  }

  /** Each owner at a contested city that faces anyone loses a tenth of what it faces, at most all it has there. */
  method CombatCasualtiesByOwner(groups: map<PlayerId, seq<Army>>, cityOwner: Option<PlayerId>, fortification: Tier)
    returns (casualties: map<PlayerId, int>)
    ensures var strength := GroupStrength(groups, cityOwner, fortification);
      && (forall p :: p in casualties <==> p in groups && Facing(groups, strength, p) > 0)
      && (forall p :: p in casualties ==> casualties[p] == Min(SumBy(TROOPS, groups[p]), Facing(groups, strength, p) / CASUALTY_DIVISOR))
  {
    ghost var strength := GroupStrength(groups, cityOwner, fortification);
    var troops := map p | p in groups :: SumBy(TROOPS, groups[p]);
    var effective := map p | p in groups :: EffectiveStrength(troops[p], cityOwner == Some(p), fortification);
    casualties := map[];
    var todo := groups.Keys;
    while todo != {}
      invariant todo <= groups.Keys
      invariant forall p :: p in casualties <==> p in groups && p !in todo && Facing(groups, strength, p) > 0
      invariant forall p :: p in casualties ==> casualties[p] == Min(troops[p], Facing(groups, strength, p) / CASUALTY_DIVISOR)
    {
      var p :| p in todo;
      var opposing := SumOthers(effective, p);
      assert opposing == Facing(groups, strength, p) by {
        SumMapAsOver(effective - {p}, strength);
        assert (effective - {p}).Keys == groups.Keys - {p};
      }
      if opposing > 0 {
        casualties := casualties[p := Min(troops[p], opposing / CASUALTY_DIVISOR)];
      }
      todo := todo - {p};
    }
  }

  lemma CasualtiesHere(s: Snapshot, c: CityId, groups: map<PlayerId, seq<Army>>, casualties: map<PlayerId, int>)
    requires c in s.cities && groups.Keys == Occupants(s.armies, c)
    requires forall q :: q in groups ==> groups[q] == GroupAt(s.armies, q, c)
    requires var strength := GroupStrength(groups, s.cities[c].owner, s.cities[c].upgrades.fortification);
      && (forall p :: p in casualties <==> p in groups && Facing(groups, strength, p) > 0)
      && (forall p :: p in casualties ==> casualties[p] == Min(SumBy(TROOPS, groups[p]), Facing(groups, strength, p) / CASUALTY_DIVISOR))
    ensures forall p :: p in groups ==> Owed(casualties, p) == CasualtiesAt(s, p, c)
  {
    var strength := GroupStrength(groups, s.cities[c].owner, s.cities[c].upgrades.fortification);
    forall p | p in groups ensures Owed(casualties, p) == CasualtiesAt(s, p, c) {
      SumOverCongruent(strength, StrengthOf(s, c), groups.Keys - {p});
      assert Facing(groups, strength, p) == Opposition(s, p, c);
    }
  }

  /** Every group in the city has casualties it can bear, and its armies are due their share of them. */
  ghost predicate DueFrom(armies: seq<Army>, due: Army -> int, c: CityId, groups: map<PlayerId, seq<Army>>,
                          casualties: map<PlayerId, int>)
  {
    forall p :: p in groups ==> GroupDue(armies, due, c, p, groups[p], Owed(casualties, p))
  }

  ghost predicate GroupDue(armies: seq<Army>, due: Army -> int, c: CityId, p: PlayerId, group: seq<Army>, total: int) {
    && group == GroupAt(armies, p, c)
    && total <= SumBy(TROOPS, group)
    && forall a :: a in armies && a.owner == p && Stationed(a, c) ==> due(a) == Loss(group, total)(a)
  }

  lemma DueFromBattle(s: Snapshot, c: CityId, groups: map<PlayerId, seq<Army>>, casualties: map<PlayerId, int>)
    requires AllStanding(s.armies) && c in s.cities && Contested(s.armies, c)
    requires forall p :: p in groups ==> groups[p] == GroupAt(s.armies, p, c)
    requires forall p :: p in groups ==> Owed(casualties, p) == CasualtiesAt(s, p, c)
    ensures DueFrom(s.armies, CombatLoss(s), c, groups, casualties)
  {
    forall p | p in groups ensures GroupDue(s.armies, CombatLoss(s), c, p, groups[p], Owed(casualties, p)) {
      CasualtiesBounded(s, p, c);
      forall a | a in s.armies && a.owner == p && Stationed(a, c)
        ensures CombatLoss(s)(a) == Loss(groups[p], Owed(casualties, p))(a)
      {
        DueInBattle(s, c, p, a);
      }
    }
  }

  /** Books the losses of every group in one contested city. */
  method BookCity(armiesHere: seq<Army>, ledger: map<ArmyId, int>, ghost done: set<CityId>,
                  ghost s: Snapshot, c: CityId, city: City)
    returns (updated: map<ArmyId, int>)
    requires UniqueIds(s.armies) && AllStanding(s.armies) && c in s.cities && city == s.cities[c]
    requires armiesHere == Filter(AtCity(c), s.armies) && Contested(s.armies, c) && c !in done
    requires LedgerMatches(s.armies, CombatLoss(s), done, c, {}, ledger)
    ensures LedgerMatches(s.armies, CombatLoss(s), done, c, Occupants(s.armies, c), updated)
  {
    var groups := ArmiesByOwner(armiesHere);
    GroupsAreGroupsAt(s, c, groups);
    var casualties := CombatCasualtiesByOwner(groups, city.owner, city.upgrades.fortification);
    CasualtiesHere(s, c, groups, casualties);
    DueFromBattle(s, c, groups, casualties);
    updated := BookGroups(groups, casualties, ledger, done, s.armies, c, CombatLoss(s));
  }

  method BookGroups(groups: map<PlayerId, seq<Army>>, casualties: map<PlayerId, int>, ledger: map<ArmyId, int>,
                    ghost done: set<CityId>, ghost armies: seq<Army>, ghost c: CityId, ghost due: Army -> int)
    returns (updated: map<ArmyId, int>)
    requires UniqueIds(armies) && AllStanding(armies) && c !in done
    requires DueFrom(armies, due, c, groups, casualties)
    requires LedgerMatches(armies, due, done, c, {}, ledger)
    ensures LedgerMatches(armies, due, done, c, groups.Keys, updated)
  {
    updated := ledger;
    var todo := groups.Keys;
    ghost var owners := {};
    while todo != {}
      invariant todo <= groups.Keys && owners !! todo && groups.Keys <= owners + todo
      invariant owners <= groups.Keys
      invariant LedgerMatches(armies, due, done, c, owners, updated)
    {
      var p :| p in todo;
      updated := BookGroup(groups[p], Owed(casualties, p), updated, done, owners, armies, c, p, due);
      todo := todo - {p};
      owners := owners + {p};
    }
    assert owners == groups.Keys;
  }

  lemma GroupsAreGroupsAt(s: Snapshot, c: CityId, groups: map<PlayerId, seq<Army>>)
    requires groups.Keys == set a | a in Filter(AtCity(c), s.armies) :: a.owner
    requires forall p :: p in groups ==> groups[p] == Filter(OwnedBy(p), Filter(AtCity(c), s.armies))
    ensures groups.Keys == Occupants(s.armies, c)
    ensures forall p :: p in groups ==> groups[p] == GroupAt(s.armies, p, c)
  {
    GroupsHere(s.armies, c);
    forall p | p in groups ensures groups[p] == GroupAt(s.armies, p, c) { GroupInCity(s.armies, p, c); }
  }

  lemma GroupsHere(armies: seq<Army>, c: CityId)
    ensures (set a | a in Filter(AtCity(c), armies) :: a.owner) == Occupants(armies, c)
  {
    forall a ensures a in Filter(AtCity(c), armies) <==> a in armies && Stationed(a, c) {
      FilterMember(AtCity(c), armies, a);
    }
  }

  method BookGroup(group: seq<Army>, total: int, ledger: map<ArmyId, int>, ghost done: set<CityId>,
                   ghost owners: set<PlayerId>, ghost armies: seq<Army>, ghost c: CityId, ghost p: PlayerId,
                   ghost due: Army -> int)
    returns (updated: map<ArmyId, int>)
    requires UniqueIds(armies) && AllStanding(armies)
    requires GroupDue(armies, due, c, p, group, total)
    requires LedgerMatches(armies, due, done, c, owners, ledger) && c !in done && p !in owners
    ensures LedgerMatches(armies, due, done, c, owners + {p}, updated)
  {
    GroupFacts(armies, p, c);
    var losses := AllocateProportionalCasualties(group, total);
    updated := AddLosses(ledger, losses);
    forall a | a in armies ensures Owed(losses, a.id) == if a.owner == p && Stationed(a, c) then due(a) else 0 {
      SharesOwed(armies, p, c, total, a);
    }
    LedgerStep(armies, due, done, c, owners, p, ledger, losses, updated);
  }

  method AddLosses(ledger: map<ArmyId, int>, losses: map<ArmyId, int>) returns (updated: map<ArmyId, int>)
    ensures forall id :: Owed(updated, id) == Owed(ledger, id) + Owed(losses, id)
  {
    updated := ledger;
    var todo := losses.Keys;
    while todo != {}
      invariant todo <= losses.Keys
      invariant forall id :: Owed(updated, id) == Owed(ledger, id) + if id in todo then 0 else Owed(losses, id)
    {
      var id :| id in todo;
      updated := updated[id := Owed(updated, id) + losses[id]];
      todo := todo - {id};
    }
  }

  /** Takes the booked losses off every army and drops the ones that are spent. */
  method ApplyLosses(armies: seq<Army>, ledger: map<ArmyId, int>, ghost loss: Army -> int) returns (surviving: seq<Army>)
    requires forall a :: a in armies ==> loss(a) == Owed(ledger, a.id)
    ensures surviving == FilterMap(Survives(loss), armies)
  {
    surviving := [];
    var i := 0;
    while i < |armies|
      invariant 0 <= i <= |armies|
      invariant surviving == FilterMap(Survives(loss), armies[..i])
    {
      var army := armies[i];
      FilterMapStep(Survives(loss), armies, i);
      var remaining := army.troops - Owed(ledger, army.id);
      if remaining > 0 {
        surviving := surviving + [army.(troops := remaining)];
      }
      i := i + 1;
    }
    assert armies[..i] == armies;
  }
}
