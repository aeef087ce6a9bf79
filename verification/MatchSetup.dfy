/** Making the initial match state from a roster: overrides, the assignment order, the search, and the state itself. */
module MatchSetup {
  import opened Collections
  import opened Ordering
  import opened Domain
  import opened Phases
  import opened SpawnSearch

  const MIN_STARTING_CITIES := 2
  const MAX_STARTING_CITIES := 3
  const CITY_POPULATION := 10
  const NEUTRAL_GARRISON := 5
  const OWNED_GARRISON := 15

  datatype RosterEntry = RosterEntry(playerId: PlayerId, starting: Option<seq<CityId>>)
  datatype MatchConfig = MatchConfig(threshold: nat, citiesPerPlayer: nat, food: nat, production: nat, money: nat)

  datatype SetupError =
    | EmptyRoster | BadCityCount
    | RepeatedPlayer(player: PlayerId) | WrongOverrideCount(player: PlayerId) | RepeatedCity(player: PlayerId, city: CityId)
    | UnknownCity(city: CityId) | IrishCity(city: CityId) | NoSpawnCity(city: CityId)
    | TakenCity(city: CityId) | AdjacentToOther(city: CityId, player: PlayerId)
    | CannotAssign

  // ---- what is being asked for ----

  ghost function Players(roster: seq<RosterEntry>): set<PlayerId> {
    set e | e in roster :: e.playerId
  }

  ghost predicate OnePerPlayer(roster: seq<RosterEntry>) {
    forall i, j :: 0 <= i < j < |roster| ==> roster[i].playerId != roster[j].playerId
  }

  lemma SplitRoster(roster: seq<RosterEntry>)
    requires OnePerPlayer(roster) && roster != []
    ensures var init, p := roster[..|roster| - 1], roster[|roster| - 1].playerId;
      OnePerPlayer(init) && Players(roster) == Players(init) + {p} && p !in Players(init)
  {
    var init, last := roster[..|roster| - 1], roster[|roster| - 1];
    assert roster == init + [last] && last in roster;
    forall e | e in init ensures e.playerId != last.playerId && e in roster {
      var i :| 0 <= i < |init| && init[i] == e;
      assert roster[i] == e;
    }
    forall q ensures q in Players(roster) <==> q in Players(init) || q == last.playerId {
      if q in Players(roster) {
        var e :| e in roster && e.playerId == q;
        assert e in init || e == last;
      }
    }
  }

  /** Players appear once, and each list of chosen cities has the right length and no repeats. */
  ghost predicate Shaped(roster: seq<RosterEntry>, k: nat) {
    && OnePerPlayer(roster)
    && (forall i :: 0 <= i < |roster| && roster[i].starting.Some? ==>
          |roster[i].starting.value| == k && Distinct(roster[i].starting.value))
  }

  /** Adjacent cities never have different owners. */
  ghost predicate Peaceful(m: MapDefinition, a: Owners) {
    forall c, d :: c in a && d in a && Adjacent(m, c, d) ==> a[c] == a[d]
  }

  ghost predicate Honours(a: Owners, e: RosterEntry) {
    forall c :: c in e.starting.GetOr([]) ==> c in a && a[c] == e.playerId
  }

  /** Legal, peaceful, exactly k cities for each player of the roster, and every chosen city as chosen. */
  ghost predicate Fair(m: MapDefinition, roster: seq<RosterEntry>, k: nat, a: Owners) {
    && (forall c :: c in a ==> LegalSpawn(m, c) && a[c] in Players(roster))
    && Peaceful(m, a)
    && (forall p :: p in Players(roster) ==> |CitiesFor(a, p)| == k)
    && (forall i :: 0 <= i < |roster| ==> Honours(a, roster[i]))
  }

  /** Every assigned city is known, open to spawns and not Irish, and belongs to a player of the roster. */
  ghost predicate OnSpawns(m: MapDefinition, roster: seq<RosterEntry>, a: Owners) {
    forall c :: c in a ==>
      c in m.cities && m.cities[c].spawnAllowed && m.cities[c].region != "Ireland" && exists e :: e in roster && e.playerId == a[c]
  }

  /** No edge joins cities of two players. */
  ghost predicate EdgesAgree(m: MapDefinition, a: Owners) {
    forall e :: e in m.edges && e.cityA in a && e.cityB in a ==> a[e.cityA] == a[e.cityB]
  }

  ghost predicate EachHas(roster: seq<RosterEntry>, k: nat, a: Owners) {
    forall e :: e in roster ==> |set c | c in a && a[c] == e.playerId| == k
  }

  ghost predicate AsChosen(roster: seq<RosterEntry>, a: Owners) {
    forall e, c :: e in roster && e.starting.Some? && c in e.starting.value ==> c in a && a[c] == e.playerId
  }

  /** Fair, edge by edge and player by player. */
  lemma FairInWords(m: MapDefinition, roster: seq<RosterEntry>, k: nat, a: Owners)
    ensures Fair(m, roster, k, a) <==> OnSpawns(m, roster, a) && EdgesAgree(m, a) && EachHas(roster, k, a) && AsChosen(roster, a)
  {
    EdgesApart(m, a);
    HaveEach(roster, k, a);
    ChosenAre(roster, a);
  }

  lemma EdgesApart(m: MapDefinition, a: Owners)
    ensures Peaceful(m, a) <==> EdgesAgree(m, a)
  {
    if Peaceful(m, a) {
      forall e | e in m.edges && e.cityA in a && e.cityB in a ensures a[e.cityA] == a[e.cityB] {
        assert Joins(e, e.cityA, e.cityB) && Adjacent(m, e.cityA, e.cityB);
      }
    }
    if EdgesAgree(m, a) {
      forall c, d | c in a && d in a && Adjacent(m, c, d) ensures a[c] == a[d] {
        var e :| e in m.edges && Joins(e, c, d);
      }
    }
  }

  lemma HaveEach(roster: seq<RosterEntry>, k: nat, a: Owners)
    ensures EachHas(roster, k, a) <==> forall p :: p in Players(roster) ==> |CitiesFor(a, p)| == k
  {
    forall p ensures CitiesFor(a, p) == set c | c in a && a[c] == p { }
    forall e | e in roster ensures e.playerId in Players(roster) { }
  }

  lemma ChosenAre(roster: seq<RosterEntry>, a: Owners)
    ensures AsChosen(roster, a) <==> forall i :: 0 <= i < |roster| ==> Honours(a, roster[i])
  {
    if AsChosen(roster, a) {
      forall i | 0 <= i < |roster| ensures Honours(a, roster[i]) { assert roster[i] in roster; }
    }
    if forall i :: 0 <= i < |roster| ==> Honours(a, roster[i]) {
      forall e, c | e in roster && e.starting.Some? && c in e.starting.value ensures c in a && a[c] == e.playerId {
        var i :| 0 <= i < |roster| && roster[i] == e;
      }
    }
  }

  ghost predicate Assignable(m: MapDefinition, roster: seq<RosterEntry>, k: nat) {
    exists a :: Fair(m, roster, k, a)
  }

  // ---- the assignment order ----

  function Lacks(books: Books, slot: nat): RosterEntry -> Option<PlayerId> {
    (e: RosterEntry) => if e.playerId in books && |books[e.playerId]| > slot then None else Some(e.playerId)
  }

  /** Slot by slot, the players of the roster who have not filled that slot. */
  function SlotOrder(roster: seq<RosterEntry>, books: Books, slots: nat): seq<PlayerId> {
    if slots == 0 then [] else SlotOrder(roster, books, slots - 1) + FilterMap(Lacks(books, slots - 1), roster)
  }

  /** Without chosen cities every round of the order is the roster itself. */
  lemma TakingTurns(roster: seq<RosterEntry>, books: Books, slots: nat)
    requires (forall p :: p in books ==> books[p] == []) && slots > 0
    ensures SlotOrder(roster, books, slots) == SlotOrder(roster, books, slots - 1) + InTurn(roster)
  {
    SameInTurn(roster, books, slots - 1);
  }

  function InTurn(roster: seq<RosterEntry>): seq<PlayerId> {
    seq(|roster|, i requires 0 <= i < |roster| => roster[i].playerId)
  }

  lemma SameInTurn(roster: seq<RosterEntry>, books: Books, slot: nat)
    requires forall p :: p in books ==> books[p] == []
    ensures FilterMap(Lacks(books, slot), roster) == InTurn(roster)
  {
    FilterMapTotal(Lacks(books, slot), roster);
    forall i | 0 <= i < |roster| ensures FilterMap(Lacks(books, slot), roster)[i] == roster[i].playerId {
      assert Lacks(books, slot)(roster[i]) == Some(FilterMap(Lacks(books, slot), roster)[i]);
    }
  }

  method BuildAssignmentOrder(roster: seq<RosterEntry>, slots: nat, books: Books) returns (order: seq<PlayerId>)
    requires Players(roster) <= books.Keys
    ensures order == SlotOrder(roster, books, slots)
  {
    order := [];
    var slot := 0;
    while slot < slots
      invariant 0 <= slot <= slots && order == SlotOrder(roster, books, slot)
    {
      ghost var earlier := order;
      var i := 0;
      while i < |roster|
        invariant 0 <= i <= |roster| && order == earlier + FilterMap(Lacks(books, slot), roster[..i])
      {
        FilterMapStep(Lacks(books, slot), roster, i);
        assert roster[i].playerId in Players(roster);
        if |books[roster[i].playerId]| <= slot {
          order := order + [roster[i].playerId];
        }
        i := i + 1;
      }
      assert roster[..i] == roster;
      slot := slot + 1;
    }
  }

  lemma {:induction false} LacksOnce(roster: seq<RosterEntry>, books: Books, slot: nat, p: PlayerId)
    requires OnePerPlayer(roster)
    requires Players(roster) <= books.Keys
    ensures Turns(FilterMap(Lacks(books, slot), roster), p) ==
      if p in Players(roster) && |books[p]| <= slot then 1 else 0
  {
    if roster != [] {
      var init, last := roster[..|roster| - 1], roster[|roster| - 1];
      SplitRoster(roster);
      LacksOnce(init, books, slot, p);
    }
  }

  /** Cities a player still needs: none for someone off the roster or with enough. */
  ghost function Missing(roster: seq<RosterEntry>, books: Books, slots: nat, p: PlayerId): nat {
    if p in Players(roster) && p in books && |books[p]| <= slots then slots - |books[p]| else 0
  }

  lemma MissingStep(roster: seq<RosterEntry>, books: Books, slot: nat, p: PlayerId)
    requires OnePerPlayer(roster) && Players(roster) <= books.Keys
    ensures Missing(roster, books, slot + 1, p) == Missing(roster, books, slot, p) + Turns(FilterMap(Lacks(books, slot), roster), p)
  {
    LacksOnce(roster, books, slot, p);
  }

  /** A player comes up once for every city still missing. */
  lemma {:induction false} SlotCount(roster: seq<RosterEntry>, books: Books, slots: nat, p: PlayerId)
    requires OnePerPlayer(roster) && Players(roster) <= books.Keys
    ensures Turns(SlotOrder(roster, books, slots), p) == Missing(roster, books, slots, p)
  {
    if slots > 0 {
      var xs, ys := SlotOrder(roster, books, slots - 1), FilterMap(Lacks(books, slots - 1), roster);
      SlotCount(roster, books, slots - 1, p);
      MissingStep(roster, books, slots - 1, p);
      SumByConcat(TurnOf(p), xs, ys);
    }
  }

  // ---- fair assignments are completions of the overrides ----

  lemma DistinctSize<T>(xs: seq<T>)
    requires Distinct(xs)
    ensures |Elements(xs)| == |xs|
  {
    DistinctMultiset(xs);
    assert |multiset(xs)| == |xs|;
    assert |multiset(Elements(xs))| == |Elements(xs)|;
  }

  lemma SplitCount(a: Owners, owners: Owners, p: PlayerId)
    requires Extends(a, owners)
    ensures |CitiesFor(a, p)| == |CitiesFor(owners, p)| + |NewFor(a, owners, p)|
  {
    assert CitiesFor(a, p) == CitiesFor(owners, p) + NewFor(a, owners, p);
    assert CitiesFor(owners, p) !! NewFor(a, owners, p);
  }

  /** What the override phase leaves: the chosen cities and nothing else, legal and peaceful. */
  ghost predicate OverridesPlaced(m: MapDefinition, roster: seq<RosterEntry>, k: nat, owners: Owners, books: Books) {
    && Shaped(roster, k)
    && books.Keys == Players(roster) && BooksAgree(owners, books)
    && (forall i :: 0 <= i < |roster| ==> roster[i].playerId in books && books[roster[i].playerId] == roster[i].starting.GetOr([]))
    && (forall c :: c in owners ==> LegalSpawn(m, c)) && Peaceful(m, owners)
  }

  lemma PlacedCounts(m: MapDefinition, roster: seq<RosterEntry>, k: nat, owners: Owners, books: Books, p: PlayerId)
    requires OverridesPlaced(m, roster, k, owners, books)
    ensures p in Players(roster) ==> |CitiesFor(owners, p)| <= k
    ensures Turns(SlotOrder(roster, books, k), p) == if p in Players(roster) then k - |CitiesFor(owners, p)| else 0
  {
    SlotCount(roster, books, k, p);
    if p in Players(roster) {
      var i :| 0 <= i < |roster| && roster[i].playerId == p;
      DistinctSize(books[p]);
    }
  }

  lemma FairCompletes(m: MapDefinition, roster: seq<RosterEntry>, k: nat, owners: Owners, books: Books, a: Owners)
    requires OverridesPlaced(m, roster, k, owners, books) && Fair(m, roster, k, a)
    ensures Completes(m, a, owners, SlotOrder(roster, books, k))
  {
    forall c | c in owners ensures c in a && a[c] == owners[c] {
      var p := owners[c];
      assert p in books && c in Elements(books[p]);
      var i :| 0 <= i < |roster| && roster[i].playerId == p;
      assert c in roster[i].starting.GetOr([]);
      assert Honours(a, roster[i]);
    }
    forall p ensures |NewFor(a, owners, p)| == Turns(SlotOrder(roster, books, k), p) {
      SplitCount(a, owners, p);
      PlacedCounts(m, roster, k, owners, books, p);
      if p !in Players(roster) { assert NewFor(a, owners, p) == {}; }
    }
  }

  lemma CompletionFair(m: MapDefinition, roster: seq<RosterEntry>, k: nat, owners: Owners, books: Books, a: Owners)
    requires OverridesPlaced(m, roster, k, owners, books) && Completes(m, a, owners, SlotOrder(roster, books, k))
    ensures Fair(m, roster, k, a)
  {
    forall c | c in a ensures LegalSpawn(m, c) && a[c] in Players(roster) {
      if c !in owners {
        assert c in NewFor(a, owners, a[c]);
        PlacedCounts(m, roster, k, owners, books, a[c]);
      }
    }
    forall c, d | c in a && d in a && Adjacent(m, c, d) ensures a[c] == a[d] { AdjacentBothWays(m, c, d); }
    forall p | p in Players(roster) ensures |CitiesFor(a, p)| == k {
      SplitCount(a, owners, p);
      PlacedCounts(m, roster, k, owners, books, p);
    }
    forall i | 0 <= i < |roster| ensures Honours(a, roster[i]) {
      forall c | c in roster[i].starting.GetOr([]) ensures c in a && a[c] == roster[i].playerId {
        assert c in Elements(books[roster[i].playerId]);
      }
    }
  }

  /** The search for what is still missing succeeds exactly when some fair assignment exists. */
  lemma SearchDecides(m: MapDefinition, roster: seq<RosterEntry>, k: nat, owners: Owners, books: Books)
    requires OverridesPlaced(m, roster, k, owners, books)
    ensures Playable(m, owners, SlotOrder(roster, books, k)) <==> Assignable(m, roster, k)
  {
    var order := SlotOrder(roster, books, k);
    PlayableIffCompletable(m, owners, order);
    if Assignable(m, roster, k) {
      var a :| Fair(m, roster, k, a);
      FairCompletes(m, roster, k, owners, books, a);
    }
    if Completable(m, owners, order) {
      var a :| Completes(m, a, owners, order);
      CompletionFair(m, roster, k, owners, books, a);
    }
  }

  // ---- counting cities ----

  ghost function HeldAmong(a: Owners, players: set<PlayerId>): set<CityId> {
    set c | c in a && a[c] in players
  }

  lemma AddPlayer(a: Owners, players: set<PlayerId>, p: PlayerId)
    requires p !in players
    ensures |HeldAmong(a, players + {p})| == |HeldAmong(a, players)| + |CitiesFor(a, p)|
  {
    assert HeldAmong(a, players + {p}) == HeldAmong(a, players) + CitiesFor(a, p);
    assert HeldAmong(a, players) !! CitiesFor(a, p);
  }

  lemma {:induction false} FairSize(roster: seq<RosterEntry>, a: Owners, k: nat)
    requires OnePerPlayer(roster)
    requires forall p :: p in Players(roster) ==> |CitiesFor(a, p)| == k
    ensures |HeldAmong(a, Players(roster))| == |roster| * k
  {
    if roster == [] {
      assert HeldAmong(a, Players(roster)) == {};
    } else {
      var init, last := roster[..|roster| - 1], roster[|roster| - 1];
      SplitRoster(roster);
      FairSize(init, a, k);
      AddPlayer(a, Players(init), last.playerId);
      assert |roster| * k == |init| * k + k;
    }
  }

  /** Too few legal cities for everyone means no fair assignment at all. */
  lemma TooFewCities(m: MapDefinition, roster: seq<RosterEntry>, k: nat, legal: seq<CityId>)
    requires Shaped(roster, k) && legal == Listing(LegalSpawns(m)) && |roster| * k > |legal|
    ensures !Assignable(m, roster, k)
  {
    ListingSorted(LegalSpawns(m));
    DistinctSize(legal);
    forall a ensures !Fair(m, roster, k, a) {
      if Fair(m, roster, k, a) { EnoughCities(m, roster, k, a); }
    }
  }

  lemma EnoughCities(m: MapDefinition, roster: seq<RosterEntry>, k: nat, a: Owners)
    requires Shaped(roster, k) && Fair(m, roster, k, a)
    ensures |roster| * k <= |LegalSpawns(m)|
  {
    FairSize(roster, a, k);
    assert HeldAmong(a, Players(roster)) <= LegalSpawns(m);
    SubsetSize(HeldAmong(a, Players(roster)), LegalSpawns(m));
  }
}
