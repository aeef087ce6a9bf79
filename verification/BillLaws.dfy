/** What orders cost and bring when they are carried out, in numbers. */
module BillLaws {
  import opened Collections
  import opened Ordering
  import opened Naming
  import opened Domain
  import opened Casualties
  import opened Phases

  // ---- recruits ----

  /** The army stands in the city and is the player's. */
  predicate Garrisons(a: Army, p: PlayerId, c: CityId) {
    a.owner == p && a.location == Some(c) && a.destination == None
  }

  /** Recruits join the player's standing army with the least id: it alone grows, by their number. */
  lemma RecruitsJoin(armies: seq<Army>, p: PlayerId, c: CityId, n: int, k: nat)
    requires UniqueIds(armies) && k < |armies| && Garrisons(armies[k], p, c)
    requires forall a :: a in armies && Garrisons(a, p, c) ==> StrLe(armies[k].id, a.id)
    ensures Reinforce(armies, p, c, n) == armies[k := armies[k].(troops := armies[k].troops + n)]
  {
    FilterMember(StationedOf(p, c), armies, armies[k]);
    var group := GroupAt(armies, p, c);
    IdOrderIsTotal();
    SortSorts(ID_ORDER, group);
    var sorted := Sort(ID_ORDER, group);
    assert armies[k] in multiset(sorted);
    var i :| 0 <= i < |sorted| && sorted[i] == armies[k];
    assert ID_ORDER(sorted[0], sorted[i]);
    assert sorted[0] in multiset(group);
    FilterMember(StationedOf(p, c), armies, sorted[0]);
    StrLeAntisymmetric(sorted[0].id, armies[k].id);
    assert LeastIdAt(armies, p, c) == armies[k].id;
    OneGrows(armies, k, n);
  }

  lemma OneGrows(armies: seq<Army>, k: nat, n: int)
    requires UniqueIds(armies) && k < |armies|
    ensures FilterMap(AddTroops(armies[k].id, n), armies) == armies[k := armies[k].(troops := armies[k].troops + n)]
  {
    FilterMapTotal(AddTroops(armies[k].id, n), armies);
  }

  /** Without one they form an army of their own there, under the first number that is free. */
  lemma RecruitsFound(armies: seq<Army>, p: PlayerId, c: CityId, n: int) returns (number: nat)
    requires forall a :: a in armies ==> !Garrisons(a, p, c)
    ensures Reinforce(armies, p, c, n)
      == armies + [Army(Numbered("recruitment:" + p + ":" + c + ":", number), p, n, Some(c), None, None, 0)]
    ensures number >= 1 && forall a :: a in armies ==> a.id != Numbered("recruitment:" + p + ":" + c + ":", number)
    ensures forall k :: 1 <= k < number ==> exists a :: a in armies && a.id == Numbered("recruitment:" + p + ":" + c + ":", k)
  {
    number := FirstFree(RecruitPrefix(p, c), Ids(armies), 1);
    if GroupAt(armies, p, c) != [] { FilterMember(StationedOf(p, c), armies, GroupAt(armies, p, c)[0]); }
  }

  /** The city's owner, if a known player, pays a food and five production for each recruit; otherwise nothing happens. */
  lemma RecruitsArePaid(s: Snapshot, o: RecruitmentOrder, p: PlayerId)
    requires p in s.players
    ensures p in RecruitOne(s, o).players
    ensures var held := s.players[p].resources;
      RecruitOne(s, o).players[p].resources ==
        if o.city in s.cities && s.cities[o.city].owner == Some(p)
        then Resources(held.food - o.troops, held.production - 5 * o.troops, held.money) else held
    ensures (o.city !in s.cities || s.cities[o.city].owner == None || s.cities[o.city].owner.value !in s.players) ==> RecruitOne(s, o) == s
  {
  }

  // ---- upgrades ----

  lemma OneOrder<T>(cost: UpgradeOrder -> int, made: UpgradeOrder -> Option<T>, o: UpgradeOrder)
    ensures SumBy(cost, [o]) == cost(o)
    ensures FilterMap(made, [o]) == match made(o) { case None => [] case Some(x) => [x] }
  {
    assert [o][..0] == [];
    assert SumBy(cost, []) == 0 && FilterMap(made, []) == [];
  }

  /** An upgrade of an idle track costs the city's owner its production and is built in as many ticks as its tier. */
  lemma UpgradeIsPaid(start: map<CityId, City>, s: Snapshot, o: UpgradeOrder, p: PlayerId)
    requires p in s.players && o.city in s.cities && s.cities[o.city].owner == Some(p)
    requires o.city in start ==> forall q :: q in start[o.city].queue ==> q.track != o.track
    ensures var held := s.players[p].resources;
      var price := match o.track
        case Economy => [7, 11, 15][o.target - 1]
        case Military => [8, 12, 16][o.target - 1]
        case Fortification => [6, 10, 14][o.target - 1];
      && UpgradesStarted(start, s, [o]).players[p].resources == Resources(held.food, held.production - price, held.money)
      && UpgradesStarted(start, s, [o]).cities[o.city]
           == s.cities[o.city].(queue := s.cities[o.city].queue + [QueueItem(o.track, o.target, o.target)])
  {
    assert o.track !in QueuedTracks(start, o.city);
    OneOrder(UpgradeBill(start, s, p), NewItem(start, s, o.city), o);
  }

  /** A track that already has something in the queue takes no order, and nobody pays. */
  lemma BusyTrackIsFree(start: map<CityId, City>, s: Snapshot, o: UpgradeOrder, q: QueueItem)
    requires o.city in start && q in start[o.city].queue && q.track == o.track
    ensures UpgradesStarted(start, s, [o]) == s
  {
    assert o.track in QueuedTracks(start, o.city);
    forall c | c in s.cities ensures UpgradesStarted(start, s, [o]).cities[c] == s.cities[c] {
      OneOrder(UpgradeBill(start, s, ""), NewItem(start, s, c), o);
    }
    forall p | p in s.players ensures UpgradesStarted(start, s, [o]).players[p] == s.players[p] {
      OneOrder(UpgradeBill(start, s, p), NewItem(start, s, o.city), o);
    }
    assert UpgradesStarted(start, s, [o]).cities == s.cities;
    assert UpgradesStarted(start, s, [o]).players == s.players;
  }

  // ---- transfers ----

  function ReceivedBy(players: map<PlayerId, Player>, p: PlayerId, r: Resource): TransferOrder -> int {
    (o: TransferOrder) => if o.recipient == p && o.resource == r && o.sender.Some? && o.sender.value in players then o.amount else 0
  }

  function SentBy(players: map<PlayerId, Player>, p: PlayerId, r: Resource): TransferOrder -> int {
    (o: TransferOrder) => if o.sender == Some(p) && o.resource == r && o.recipient in players then o.amount else 0
  }

  lemma {:induction false} NetIsReceivedLessSent(players: map<PlayerId, Player>, p: PlayerId, r: Resource, orders: seq<TransferOrder>)
    requires p in players
    ensures SumBy(TransferNet(players, p, r), orders) == SumBy(ReceivedBy(players, p, r), orders) - SumBy(SentBy(players, p, r), orders)
  {
    if orders != [] { NetIsReceivedLessSent(players, p, r, orders[..|orders| - 1]); }
  }

  /** Each count changes by what known players send the player of it, less what the player sends to known players. */
  lemma TransfersArrive(s: Snapshot, orders: seq<TransferOrder>, p: PlayerId)
    requires p in s.players
    ensures var held, left := s.players[p].resources, Transferred(s, orders).players[p].resources;
      && left.food == held.food + SumBy(ReceivedBy(s.players, p, Food), orders) - SumBy(SentBy(s.players, p, Food), orders)
      && left.production
           == held.production + SumBy(ReceivedBy(s.players, p, Production), orders) - SumBy(SentBy(s.players, p, Production), orders)
      && left.money == held.money + SumBy(ReceivedBy(s.players, p, Money), orders) - SumBy(SentBy(s.players, p, Money), orders)
  {
    NetIsReceivedLessSent(s.players, p, Food, orders);
    NetIsReceivedLessSent(s.players, p, Production, orders);
    NetIsReceivedLessSent(s.players, p, Money, orders);
  }
}
