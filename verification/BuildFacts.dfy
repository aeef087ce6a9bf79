/** Step facts for the loops of the build phase. */
module BuildFacts {
  import opened Collections
  import opened Ordering
  import opened Domain
  import opened Casualties
  import opened Phases

  // ---- recruitment ----

  lemma OwnerLeFacts(x: Option<PlayerId>, y: Option<PlayerId>, z: Option<PlayerId>)
    ensures OwnerLe(x, y) || OwnerLe(y, x)
    ensures OwnerLe(x, y) && OwnerLe(y, x) ==> x == y
    ensures OwnerLe(x, y) && OwnerLe(y, z) ==> OwnerLe(x, z)
  {
    StringOrderFacts(x.GetOr(""), y.GetOr(""), z.GetOr(""));
  }

  lemma StringOrderFacts(x: string, y: string, z: string)
    ensures StrLe(x, y) || StrLe(y, x)
    ensures StrLe(x, y) && StrLe(y, x) ==> x == y
    ensures StrLe(x, y) && StrLe(y, z) ==> StrLe(x, z)
  {
    StrLeTotal(x, y);
    if StrLe(x, y) && StrLe(y, x) { StrLeAntisymmetric(x, y); }
    if StrLe(x, y) && StrLe(y, z) { StrLeTransitive(x, y, z); }
  }

  lemma RecruitLeFacts(cities: map<CityId, City>, x: RecruitmentOrder, y: RecruitmentOrder, z: RecruitmentOrder)
    ensures RecruitLe(cities, x, y) || RecruitLe(cities, y, x)
    ensures RecruitLe(cities, x, y) && RecruitLe(cities, y, x) ==> x == y
    ensures RecruitLe(cities, x, y) && RecruitLe(cities, y, z) ==> RecruitLe(cities, x, z)
  {
    var a, b, c := CityOwner(cities, x.city), CityOwner(cities, y.city), CityOwner(cities, z.city);
    OwnerLeFacts(a, b, c);
    OwnerLeFacts(b, c, a);
    OwnerLeFacts(a, c, b);
    StringOrderFacts(x.city, y.city, z.city);
    StringOrderFacts(y.city, z.city, x.city);
    StringOrderFacts(x.city, z.city, y.city);
  }

  lemma RecruitOrderIsTotal(cities: map<CityId, City>)
    ensures TotalPreorder(RecruitOrder(cities)) && Antisymmetric(RecruitOrder(cities))
  {
    var le := RecruitOrder(cities);
    forall x: RecruitmentOrder, y: RecruitmentOrder ensures le(x, y) || le(y, x) { RecruitLeFacts(cities, x, y, x); }
    forall x: RecruitmentOrder, y: RecruitmentOrder | le(x, y) && le(y, x) ensures x == y { RecruitLeFacts(cities, x, y, x); }
    forall x: RecruitmentOrder, y: RecruitmentOrder, z: RecruitmentOrder | le(x, y) && le(y, z) ensures le(x, z) { RecruitLeFacts(cities, x, y, z); }
  }

  /** Sorting the recruitment orders gives up exactly when owned and ownerless cities are mixed. */
  lemma RecruitSortIff(cities: map<CityId, City>, orders: seq<RecruitmentOrder>)
    ensures TrySort(RecruitOrder(cities), OwnersComparable(cities), orders)
      == if RecruitSortable(cities, orders) then Some(Sort(RecruitOrder(cities), orders)) else None
  {
    RecruitOrderIsTotal(cities);
    TrySortIff(RecruitOrder(cities), OwnersComparable(cities), HasOwner(cities), orders);
  }

  lemma SortableStays(before: map<CityId, City>, after: map<CityId, City>, orders: seq<RecruitmentOrder>)
    requires before.Keys == after.Keys && forall c :: c in before ==> after[c].owner == before[c].owner
    ensures RecruitSortable(after, orders) <==> RecruitSortable(before, orders)
  {
    forall o ensures HasOwner(after)(o) == HasOwner(before)(o) { }
  }

  lemma IdsAppend(armies: seq<Army>, a: Army)
    ensures Ids(armies + [a]) == Ids(armies) + {a.id}
  {
  }

  lemma AddTroopsTotal(armies: seq<Army>, id: ArmyId, n: int)
    ensures |FilterMap(AddTroops(id, n), armies)| == |armies|
    ensures forall i :: 0 <= i < |armies| ==>
      FilterMap(AddTroops(id, n), armies)[i] == if armies[i].id == id then armies[i].(troops := armies[i].troops + n) else armies[i]
  {
    FilterMapTotal(AddTroops(id, n), armies);
  }

  /** With unique ids, reinforcing by name is reinforcing one list position. */
  lemma AddTroopsAt(armies: seq<Army>, i: nat, n: int)
    requires UniqueIds(armies) && i < |armies|
    ensures FilterMap(AddTroops(armies[i].id, n), armies) == armies[i := armies[i].(troops := armies[i].troops + n)]
  {
    AddTroopsTotal(armies, armies[i].id, n);
  }

  lemma UniqueIdsUpdate(armies: seq<Army>, i: nat, n: int)
    requires UniqueIds(armies) && i < |armies|
    ensures var updated := armies[i := armies[i].(troops := n)]; UniqueIds(updated) && Ids(updated) == Ids(armies)
  {
    var updated := armies[i := armies[i].(troops := n)];
    forall id ensures id in Ids(updated) <==> id in Ids(armies) {
      if id in Ids(armies) {
        var k :| 0 <= k < |armies| && armies[k].id == id;
        assert updated[k] in updated && updated[k].id == id;
      }
      if id in Ids(updated) {
        var k :| 0 <= k < |updated| && updated[k].id == id;
        assert armies[k] in armies && armies[k].id == id;
      }
    }
  }

  lemma UniqueIdsAppend(armies: seq<Army>, a: Army)
    requires UniqueIds(armies) && a.id !in Ids(armies)
    ensures UniqueIds(armies + [a])
  {
    forall k | 0 <= k < |armies| ensures armies[k].id != a.id { assert armies[k] in armies; }
  }

  lemma RecruitStep(s: Snapshot, orders: seq<RecruitmentOrder>, i: nat)
    requires i < |orders|
    ensures RecruitAll(s, orders[..i + 1]) == RecruitOne(RecruitAll(s, orders[..i]), orders[i])
  {
    assert orders[..i + 1][..i] == orders[..i];
  }

  /** Recruiting touches only the payers' resources and the army list. */
  lemma {:induction false} RecruitFrame(s: Snapshot, orders: seq<RecruitmentOrder>)
    ensures var r := RecruitAll(s, orders);
      r.cities == s.cities && r.players.Keys == s.players.Keys && r.tick == s.tick && r.victory == s.victory
  {
    if orders != [] { RecruitFrame(s, orders[..|orders| - 1]); }
  }

  function Adjusted(player: Player, r: Resource, amount: int): Player {
    player.(resources := player.resources.Add(r, amount))
  }

  function Debited(player: Player, r: Resource, amount: int): Player {
    Adjusted(player, r, -amount)
  }

  // ---- upgrades ----

  ghost predicate QueuesExtended(start: map<CityId, City>, s: Snapshot, cities: map<CityId, City>, orders: seq<UpgradeOrder>) {
    && cities.Keys == s.cities.Keys
    && forall c :: c in cities ==>
         cities[c] == s.cities[c].(queue := s.cities[c].queue + FilterMap(NewItem(start, s, c), orders))
  }

  ghost predicate UpgradesBilled(start: map<CityId, City>, s: Snapshot, players: map<PlayerId, Player>, orders: seq<UpgradeOrder>) {
    && players.Keys == s.players.Keys
    && forall p :: p in players ==>
         players[p] == s.players[p].(resources := s.players[p].resources.Add(Production, -SumBy(UpgradeBill(start, s, p), orders)))
  }

  lemma PayerUnchanged(start: map<CityId, City>, s: Snapshot, cities: map<CityId, City>, players: map<PlayerId, Player>,
                       orders: seq<UpgradeOrder>, c: CityId)
    requires QueuesExtended(start, s, cities, orders) && UpgradesBilled(start, s, players, orders)
    ensures Payer(cities, players, c) == Payer(s.cities, s.players, c)
  {
  }

  lemma UpgradeSkipped(start: map<CityId, City>, s: Snapshot, cities: map<CityId, City>, players: map<PlayerId, Player>,
                       orders: seq<UpgradeOrder>, i: nat)
    requires i < |orders| && UpgradePayer(start, s, orders[i]) == None
    requires QueuesExtended(start, s, cities, orders[..i]) && UpgradesBilled(start, s, players, orders[..i])
    ensures QueuesExtended(start, s, cities, orders[..i + 1]) && UpgradesBilled(start, s, players, orders[..i + 1])
  {
    forall c | c in cities ensures FilterMap(NewItem(start, s, c), orders[..i + 1]) == FilterMap(NewItem(start, s, c), orders[..i]) {
      FilterMapStep(NewItem(start, s, c), orders, i);
    }
    forall p | p in players
      ensures SumBy(UpgradeBill(start, s, p), orders[..i + 1]) == SumBy(UpgradeBill(start, s, p), orders[..i])
    {
      SumByStep(UpgradeBill(start, s, p), orders, i);
    }
  }

  lemma QueueStarted(start: map<CityId, City>, s: Snapshot, cities: map<CityId, City>, orders: seq<UpgradeOrder>, i: nat)
    requires i < |orders| && UpgradePayer(start, s, orders[i]).Some?
    requires QueuesExtended(start, s, cities, orders[..i]) && orders[i].city in cities
    ensures var o := orders[i];
      var item := QueueItem(o.track, o.target, BuildDuration(o.target));
      QueuesExtended(start, s, cities[o.city := cities[o.city].(queue := cities[o.city].queue + [item])], orders[..i + 1])
  {
    forall c | c in cities
      ensures FilterMap(NewItem(start, s, c), orders[..i + 1]) == FilterMap(NewItem(start, s, c), orders[..i])
        + if c == orders[i].city then [QueueItem(orders[i].track, orders[i].target, BuildDuration(orders[i].target))] else []
    {
      FilterMapStep(NewItem(start, s, c), orders, i);
    }
  }

  lemma UpgradeCharged(start: map<CityId, City>, s: Snapshot, players: map<PlayerId, Player>, orders: seq<UpgradeOrder>, i: nat,
                       p: PlayerId)
    requires i < |orders| && UpgradePayer(start, s, orders[i]) == Some(p) && p in players
    requires UpgradesBilled(start, s, players, orders[..i])
    ensures UpgradesBilled(start, s,
      players[p := Debited(players[p], Production, UpgradeCost(orders[i].track, orders[i].target))],
      orders[..i + 1])
  {
    forall q | q in players
      ensures SumBy(UpgradeBill(start, s, q), orders[..i + 1]) == SumBy(UpgradeBill(start, s, q), orders[..i])
        + if q == p then UpgradeCost(orders[i].track, orders[i].target) else 0
    {
      SumByStep(UpgradeBill(start, s, q), orders, i);
    }
  }


  ghost function UpgradeOne(start: map<CityId, City>, s: Snapshot, o: UpgradeOrder): Snapshot {
    match UpgradePayer(start, s, o)
    case None => s
    case Some(p) =>
      s.(cities := s.cities[o.city := s.cities[o.city].(
           queue := s.cities[o.city].queue + [QueueItem(o.track, o.target, BuildDuration(o.target))])],
         players := s.players[p := Debited(s.players[p], Production, UpgradeCost(o.track, o.target))])
  }

  ghost function UpgradeAll(start: map<CityId, City>, s: Snapshot, orders: seq<UpgradeOrder>): Snapshot {
    if orders == [] then s
    else UpgradeOne(start, UpgradeAll(start, s, orders[..|orders| - 1]), orders[|orders| - 1])
  }

  lemma UpgradeAllStep(start: map<CityId, City>, s: Snapshot, orders: seq<UpgradeOrder>, i: nat)
    requires i < |orders|
    ensures UpgradeAll(start, s, orders[..i + 1]) == UpgradeOne(start, UpgradeAll(start, s, orders[..i]), orders[i])
  {
    assert orders[..i + 1][..i] == orders[..i];
  }

  /** Starting upgrades one after the other comes to extending every queue and billing every payer once. */
  lemma {:induction false} UpgradeAllClosed(start: map<CityId, City>, s: Snapshot, orders: seq<UpgradeOrder>)
    ensures UpgradeAll(start, s, orders) == UpgradesStarted(start, s, orders)
  {
    assert orders[..|orders|] == orders;
    UpgradeAllInvariant(start, s, orders, |orders|);
    var r := UpgradeAll(start, s, orders);
    QueuesAllExtended(start, s, r.cities, orders);
    AllUpgradesBilled(start, s, r.players, orders);
  }

  lemma QueuesAllExtended(start: map<CityId, City>, s: Snapshot, cities: map<CityId, City>, orders: seq<UpgradeOrder>)
    requires QueuesExtended(start, s, cities, orders)
    ensures cities == UpgradesStarted(start, s, orders).cities
  {
  }

  lemma AllUpgradesBilled(start: map<CityId, City>, s: Snapshot, players: map<PlayerId, Player>, orders: seq<UpgradeOrder>)
    requires UpgradesBilled(start, s, players, orders)
    ensures players == UpgradesStarted(start, s, orders).players
  {
  }

  lemma {:induction false} UpgradeAllInvariant(start: map<CityId, City>, s: Snapshot, orders: seq<UpgradeOrder>, i: nat)
    requires i <= |orders|
    ensures var r := UpgradeAll(start, s, orders[..i]);
      QueuesExtended(start, s, r.cities, orders[..i]) && UpgradesBilled(start, s, r.players, orders[..i])
      && r == s.(cities := r.cities, players := r.players)
  {
    if i > 0 {
      UpgradeAllInvariant(start, s, orders, i - 1);
      UpgradeAllStep(start, s, orders, i - 1);
      var r, o := UpgradeAll(start, s, orders[..i - 1]), orders[i - 1];
      PayerUnchanged(start, s, r.cities, r.players, orders[..i - 1], o.city);
      match UpgradePayer(start, s, o)
      case None => UpgradeSkipped(start, s, r.cities, r.players, orders, i - 1);
      case Some(p) =>
        UpgradeCharged(start, s, r.players, orders, i - 1, p);
        QueueStarted(start, s, r.cities, orders, i - 1);
    }
  }

  // ---- transfers ----

  ghost predicate TransfersMade(s: Snapshot, players: map<PlayerId, Player>, orders: seq<TransferOrder>) {
    && players.Keys == s.players.Keys
    && forall p :: p in players ==> players[p] == AfterTransfers(s.players, p, orders)
  }

  /** One more order changes one player's totals by what the order nets it. */
  lemma AfterTransferStep(players: map<PlayerId, Player>, p: PlayerId, orders: seq<TransferOrder>, i: nat)
    requires i < |orders| && p in players
    ensures AfterTransfers(players, p, orders[..i + 1])
         == Adjusted(AfterTransfers(players, p, orders[..i]), orders[i].resource,
              TransferNet(players, p, orders[i].resource)(orders[i]))
  {
    SumByStep(TransferNet(players, p, Food), orders, i);
    SumByStep(TransferNet(players, p, Production), orders, i);
    SumByStep(TransferNet(players, p, Money), orders, i);
  }

  lemma TransferSkipped(s: Snapshot, players: map<PlayerId, Player>, orders: seq<TransferOrder>, i: nat)
    requires i < |orders| && !TransferApplies(s.players, orders[i])
    requires TransfersMade(s, players, orders[..i])
    ensures TransfersMade(s, players, orders[..i + 1])
  {
    forall p | p in players ensures players[p] == AfterTransfers(s.players, p, orders[..i + 1]) {
      AfterTransferStep(s.players, p, orders, i);
    }
  }

  lemma TransferStep(s: Snapshot, players: map<PlayerId, Player>, orders: seq<TransferOrder>, i: nat)
    requires i < |orders| && TransferApplies(s.players, orders[i])
    requires TransfersMade(s, players, orders[..i])
    ensures var o := orders[i];
      var debited := players[o.sender.value := Debited(players[o.sender.value], o.resource, o.amount)];
      TransfersMade(s, debited[o.recipient := Adjusted(debited[o.recipient], o.resource, o.amount)], orders[..i + 1])
  {
    var o := orders[i];
    var debited := players[o.sender.value := Debited(players[o.sender.value], o.resource, o.amount)];
    var settled := debited[o.recipient := Adjusted(debited[o.recipient], o.resource, o.amount)];
    forall p | p in settled ensures settled[p] == AfterTransfers(s.players, p, orders[..i + 1]) {
      AfterTransferStep(s.players, p, orders, i);
    }
  }
}
