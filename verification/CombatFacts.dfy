/** Grouping, casualties and the loss ledger of the combat phase. */
module CombatFacts {
  import opened Collections
  import opened Domain
  import opened Casualties
  import opened Phases

  function AtCity(c: CityId): Army -> bool {
    (a: Army) => Stationed(a, c)
  }

  function OwnedBy(p: PlayerId): Army -> bool {
    (a: Army) => a.owner == p
  }

  lemma GroupInCity(armies: seq<Army>, p: PlayerId, c: CityId)
    ensures Filter(OwnedBy(p), Filter(AtCity(c), armies)) == GroupAt(armies, p, c)
  {
    FilterFilter(AtCity(c), OwnedBy(p), StationedOf(p, c), armies);
  }

  lemma {:induction false} FilterUniqueIds(keep: Army -> bool, armies: seq<Army>)
    requires UniqueIds(armies)
    ensures UniqueIds(Filter(keep, armies))
  {
    if armies != [] {
      var init, last := armies[..|armies| - 1], armies[|armies| - 1];
      FilterUniqueIds(keep, init);
      var kept := Filter(keep, init);
      forall k | 0 <= k < |kept| ensures kept[k].id != last.id {
        FilterMember(keep, init, kept[k]);
      }
    }
  }

  lemma FilterStanding(keep: Army -> bool, armies: seq<Army>)
    requires AllStanding(armies)
    ensures AllStanding(Filter(keep, armies))
  {
    forall a | a in Filter(keep, armies) ensures 0 < a.troops { FilterMember(keep, armies, a); }
  }

  lemma GroupFacts(armies: seq<Army>, p: PlayerId, c: CityId)
    requires UniqueIds(armies) && AllStanding(armies)
    ensures UniqueIds(GroupAt(armies, p, c)) && AllStanding(GroupAt(armies, p, c))
    ensures forall a :: a in GroupAt(armies, p, c) <==> a in armies && a.owner == p && Stationed(a, c)
  {
    FilterUniqueIds(StationedOf(p, c), armies);
    FilterStanding(StationedOf(p, c), armies);
    forall a ensures a in GroupAt(armies, p, c) <==> a in armies && a.owner == p && Stationed(a, c) {
      FilterMember(StationedOf(p, c), armies, a);
    }
  }

  lemma TwoMembers<T>(xs: set<T>) returns (x: T, y: T)
    requires |xs| > 1
    ensures x in xs && y in xs && x != y
  {
    x := Pick(xs);
    assert |xs - {x}| > 0;
    y := Pick(xs - {x});
  }

  lemma OccupantsContested(armies: seq<Army>, c: CityId)
    ensures |Occupants(armies, c)| > 1 <==> Contested(armies, c)
  {
    var owners := Occupants(armies, c);
    if Contested(armies, c) {
      var a, b :| a in armies && b in armies && Stationed(a, c) && Stationed(b, c) && a.owner != b.owner;
      assert {a.owner, b.owner} <= owners;
      SubsetSize({a.owner, b.owner}, owners);
    }
    if |owners| > 1 {
      var p, q := TwoMembers(owners);
      var a :| a in armies && Stationed(a, c) && a.owner == p;
      var b :| b in armies && Stationed(b, c) && b.owner == q;
    }
  }

  // ---- the ledger of losses, group by group ----

  function Owed<K>(ledger: map<K, int>, k: K): int {
    if k in ledger then ledger[k] else 0
  }

  /** The groups booked so far: all of the `done` cities, and those of `owners` in city `c`. */
  ghost predicate Booked(a: Army, done: set<CityId>, c: CityId, owners: set<PlayerId>) {
    a.location.Some? && a.destination == None
    && (a.location.value in done || (a.location.value == c && a.owner in owners))
  }

  /** The ledger owes each booked army what is due, and the others nothing. */
  ghost predicate LedgerMatches(armies: seq<Army>, due: Army -> int, done: set<CityId>, c: CityId, owners: set<PlayerId>,
                                ledger: map<ArmyId, int>)
  {
    forall a :: a in armies ==> Owed(ledger, a.id) == if Booked(a, done, c, owners) then due(a) else 0
  }

  lemma LossByIdAt(group: seq<Army>, total: int, a: Army)
    requires UniqueIds(group) && AllStanding(group) && total <= SumBy(TROOPS, group)
    requires a in group
    ensures Loss(group, total)(a) == Owed(LossById(group, total), a.id)
  {
    LossAffordable(group, total, a);
  }

  lemma LossByIdElsewhere(group: seq<Army>, total: int, id: ArmyId)
    requires UniqueIds(group) && id !in Ids(group)
    ensures id !in LossById(group, total)
  {
  }

  lemma CasualtiesBounded(s: Snapshot, p: PlayerId, c: CityId)
    requires AllStanding(s.armies) && c in s.cities
    ensures 0 <= CasualtiesAt(s, p, c) <= SumBy(TROOPS, GroupAt(s.armies, p, c))
  {
    FilterStanding(StationedOf(p, c), s.armies);
    SumByNonNegative(TROOPS, GroupAt(s.armies, p, c));
  }

  lemma DifferentIds(armies: seq<Army>, a: Army, b: Army)
    requires UniqueIds(armies) && a in armies && b in armies && a != b
    ensures a.id != b.id
  {
  }

  /** What one group's allocation owes each army: its share inside the group, nothing outside. */
  lemma SharesOwed(armies: seq<Army>, p: PlayerId, c: CityId, total: int, a: Army)
    requires UniqueIds(armies) && AllStanding(armies) && a in armies
    requires UniqueIds(GroupAt(armies, p, c)) && total <= SumBy(TROOPS, GroupAt(armies, p, c))
    ensures Owed(LossById(GroupAt(armies, p, c), total), a.id)
         == if a.owner == p && Stationed(a, c) then Loss(GroupAt(armies, p, c), total)(a) else 0
  {
    var group := GroupAt(armies, p, c);
    GroupFacts(armies, p, c);
    if a in group {
      LossByIdAt(group, total, a);
    } else {
      forall b | b in group ensures b.id != a.id { DifferentIds(armies, a, b); }
      LossByIdElsewhere(group, total, a.id);
    }
  }

  /** Booking one group's losses; nobody in the group was booked before. */
  lemma LedgerStep(armies: seq<Army>, due: Army -> int, done: set<CityId>, c: CityId, owners: set<PlayerId>, p: PlayerId,
                   ledger: map<ArmyId, int>, losses: map<ArmyId, int>, updated: map<ArmyId, int>)
    requires LedgerMatches(armies, due, done, c, owners, ledger) && c !in done && p !in owners
    requires forall a :: a in armies ==>
      Owed(losses, a.id) == if a.owner == p && Stationed(a, c) then due(a) else 0
    requires forall id :: Owed(updated, id) == Owed(ledger, id) + Owed(losses, id)
    ensures LedgerMatches(armies, due, done, c, owners + {p}, updated)
  {
  }

  lemma LedgerMove(armies: seq<Army>, due: Army -> int, done: set<CityId>, c: CityId, next: CityId, ledger: map<ArmyId, int>)
    requires LedgerMatches(armies, due, done, c, {}, ledger)
    ensures LedgerMatches(armies, due, done, next, {}, ledger)
  {
  }

  lemma LedgerCityDone(s: Snapshot, done: set<CityId>, c: CityId, ledger: map<ArmyId, int>, next: CityId, due: Army -> int)
    requires LedgerMatches(s.armies, due, done, c, Occupants(s.armies, c), ledger)
    ensures LedgerMatches(s.armies, due, done + {c}, next, {}, ledger)
  {
    forall a | a in s.armies && a.location == Some(c) && a.destination == None ensures a.owner in Occupants(s.armies, c) {
      assert Stationed(a, c);
    }
  }

  lemma LedgerCityQuiet(s: Snapshot, done: set<CityId>, c: CityId, ledger: map<ArmyId, int>, next: CityId)
    requires LedgerMatches(s.armies, CombatLoss(s), done, c, {}, ledger) && !Contested(s.armies, c) && c !in done
    ensures LedgerMatches(s.armies, CombatLoss(s), done + {c}, next, {}, ledger)
  {
    forall a | a in s.armies && a.location == Some(c) && a.destination == None ensures CombatLoss(s)(a) == 0 {
    }
  }

  lemma LedgerComplete(s: Snapshot, done: set<CityId>, c: CityId, ledger: map<ArmyId, int>)
    requires LedgerMatches(s.armies, CombatLoss(s), done, c, {}, ledger) && s.cities.Keys <= done
    ensures forall a :: a in s.armies ==> CombatLoss(s)(a) == Owed(ledger, a.id)
  {
    forall a | a in s.armies ensures CombatLoss(s)(a) == Owed(ledger, a.id) {
      if !Booked(a, done, c, {}) { assert !InBattle(s, a); }
    }
  }

  /** What is due in a contested city is the group's share of its casualties. */
  lemma DueInBattle(s: Snapshot, c: CityId, p: PlayerId, a: Army)
    requires c in s.cities && Contested(s.armies, c) && a in s.armies && a.owner == p && Stationed(a, c)
    ensures CombatLoss(s)(a) == Loss(GroupAt(s.armies, p, c), CasualtiesAt(s, p, c))(a)
  {
    assert BattleLoss(s, p, c, a) == Loss(GroupAt(s.armies, p, c), CasualtiesAt(s, p, c))(a);
  }
}
