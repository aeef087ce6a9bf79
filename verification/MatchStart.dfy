/** The initial match: placing overrides, searching for the rest, and what the first state satisfies. */
module MatchStart {
  import opened Collections
  import opened Ordering
  import opened Domain
  import opened Phases
  import opened ResourceSteps
  import opened SiegeSteps
  import opened ControlFacts
  import opened AttritionFacts
  import opened RunInvariant
  import opened RecordTypes
  import opened AllianceRules
  import opened AllianceDerivation
  import opened RecordRuns
  import opened SpawnSearch
  import opened MatchSetup

  // ---- the look-ups ----

  method BuildAdjacencyLookup(m: MapDefinition) returns (adjacency: map<CityId, set<CityId>>)
    requires MapWellFormed(m)
    ensures IsLookup(m, adjacency)
  {
    adjacency := map c | c in m.cities :: {};
    var i := 0;
    while i < |m.edges|
      invariant 0 <= i <= |m.edges| && adjacency.Keys == m.cities.Keys
      invariant forall a, b :: Linked(adjacency, a, b) <==> AdjacentBy(m.edges[..i], a, b)
    {
      var e := m.edges[i];
      assert e in m.edges;
      var halfway := Link(adjacency, e.cityA, e.cityB);
      var linked := Link(halfway, e.cityB, e.cityA);
      forall a, b ensures Linked(linked, a, b) <==> AdjacentBy(m.edges[..i + 1], a, b) {
        AdjacentByStep(m.edges, i, a, b);
        assert Linked(halfway, a, b) <==> Linked(adjacency, a, b) || (a == e.cityA && b == e.cityB);
      }
      adjacency := linked;
      i := i + 1;
    }
    assert m.edges[..i] == m.edges;
  }

  method LegalSpawnCityIds(m: MapDefinition) returns (ids: seq<CityId>)
    ensures ids == Listing(LegalSpawns(m))
  {
    var legal := set c | c in m.cities && m.cities[c].spawnAllowed && m.cities[c].region != "Ireland";
    assert legal == LegalSpawns(m);
    var listed := ListIds(legal);
    ids := SortIds(listed);
  }

  // ---- overrides ----

  /** Why no fair assignment can honour the roster. */
  ghost predicate Justified(m: MapDefinition, roster: seq<RosterEntry>, k: nat, error: SetupError) {
    match error
    case EmptyRoster => roster == []
    case BadCityCount => !(MIN_STARTING_CITIES <= k <= MAX_STARTING_CITIES)
    case RepeatedPlayer(p) => exists i, j :: 0 <= i < j < |roster| && roster[i].playerId == roster[j].playerId == p
    case WrongOverrideCount(p) => exists e :: e in roster && e.playerId == p && e.starting.Some? && |e.starting.value| != k
    case RepeatedCity(p, c) => exists e :: e in roster && e.playerId == p && multiset(e.starting.GetOr([]))[c] > 1
    case UnknownCity(c) => Chosen(roster, c) && c !in m.cities
    case IrishCity(c) => Chosen(roster, c) && c in m.cities && m.cities[c].region == "Ireland"
    case NoSpawnCity(c) => Chosen(roster, c) && c in m.cities && !m.cities[c].spawnAllowed
    case TakenCity(c) => exists p, q :: p != q && ChosenBy(roster, p, c) && ChosenBy(roster, q, c)
    case AdjacentToOther(c, p) => exists d, q :: q != p && Adjacent(m, c, d) && ChosenBy(roster, p, c) && ChosenBy(roster, q, d)
    case CannotAssign => Shaped(roster, k) && !Assignable(m, roster, k)
  }

  ghost predicate ChosenBy(roster: seq<RosterEntry>, p: PlayerId, c: CityId) {
    exists e :: e in roster && e.playerId == p && c in e.starting.GetOr([])
  }

  ghost predicate Chosen(roster: seq<RosterEntry>, c: CityId) {
    exists e :: e in roster && c in e.starting.GetOr([])
  }

  /** A justified error means there is nothing to find. */
  lemma JustifiedMeansNone(m: MapDefinition, roster: seq<RosterEntry>, k: nat, error: SetupError)
    requires Justified(m, roster, k, error) && !error.EmptyRoster? && !error.BadCityCount?
    ensures !(Shaped(roster, k) && Assignable(m, roster, k))
  {
    if Shaped(roster, k) && Assignable(m, roster, k) {
      var a :| Fair(m, roster, k, a);
      ChosenAreOwned(m, roster, k, a);
      ShapedLists(roster, k);
      match error {
        case WrongOverrideCount(p) => assert false;
        case RepeatedCity(p, c) => assert false;
        case UnknownCity(c) => assert false;
        case IrishCity(c) => assert false;
        case NoSpawnCity(c) => assert false;
        case TakenCity(c) => assert false;
        case AdjacentToOther(c, p) => assert false;
        case RepeatedPlayer(p) => assert false;
        case CannotAssign => assert false;
      }
    }
  }

  lemma ShapedLists(roster: seq<RosterEntry>, k: nat)
    requires Shaped(roster, k)
    ensures forall e :: e in roster && e.starting.Some? ==> |e.starting.value| == k
    ensures forall e, c :: e in roster ==> multiset(e.starting.GetOr([]))[c] <= 1
  {
    forall e, c | e in roster ensures multiset(e.starting.GetOr([]))[c] <= 1 {
      DistinctMultiset(e.starting.GetOr([]));
    }
  }

  lemma ChosenAreOwned(m: MapDefinition, roster: seq<RosterEntry>, k: nat, a: Owners)
    requires Fair(m, roster, k, a)
    ensures forall p, c :: ChosenBy(roster, p, c) ==> c in a && a[c] == p
    ensures forall c :: Chosen(roster, c) ==> c in a && LegalSpawn(m, c)
  {
    forall e, c | e in roster && c in e.starting.GetOr([]) ensures c in a && a[c] == e.playerId {
      var i :| 0 <= i < |roster| && roster[i] == e;
      assert Honours(a, roster[i]);
    }
  }

  /** Everything placed so far was chosen so, is legal, and is at peace. */
  ghost predicate PlacedSoFar(m: MapDefinition, roster: seq<RosterEntry>, owners: Owners) {
    && (forall c :: c in owners ==> LegalSpawn(m, c) && ChosenBy(roster, owners[c], c))
    && Peaceful(m, owners)
  }

  method ValidateStartingCity(m: MapDefinition, c: CityId, p: PlayerId, adjacency: map<CityId, set<CityId>>, owners: Owners,
                              ghost roster: seq<RosterEntry>, ghost k: nat)
    returns (error: Option<SetupError>)
    requires IsLookup(m, adjacency) && PlacedSoFar(m, roster, owners) && ChosenBy(roster, p, c)
    requires c in owners ==> owners[c] != p
    ensures error == None ==> LegalSpawn(m, c) && Fits(m, owners, c, p)
    ensures error.Some? ==> Justified(m, roster, k, error.value) && !error.value.EmptyRoster? && !error.value.BadCityCount?
  {
    assert Chosen(roster, c);
    if c !in m.cities {
      return Some(UnknownCity(c));
    }
    if m.cities[c].region == "Ireland" {
      return Some(IrishCity(c));
    }
    if !m.cities[c].spawnAllowed {
      return Some(NoSpawnCity(c));
    }
    if c in owners {
      return Some(TakenCity(c));
    }
    var todo := adjacency[c];
    while todo != {}
      invariant todo <= adjacency[c]
      invariant forall d :: d in adjacency[c] - todo && d in owners ==> owners[d] == p
    {
      var d :| d in todo;
      assert Linked(adjacency, c, d);
      if d in owners && owners[d] != p {
        return Some(AdjacentToOther(c, p));
      }
      todo := todo - {d};
    }
    forall d | d in owners && Adjacent(m, c, d) ensures owners[d] == p {
      assert Linked(adjacency, c, d);
      assert d in adjacency[c] - todo;
    }
    error := None;
  }

  lemma PlaceOne(m: MapDefinition, roster: seq<RosterEntry>, owners: Owners, c: CityId, p: PlayerId)
    requires PlacedSoFar(m, roster, owners) && LegalSpawn(m, c) && Fits(m, owners, c, p) && ChosenBy(roster, p, c)
    ensures PlacedSoFar(m, roster, owners[c := p])
  {
    var next := owners[c := p];
    forall x, d | x in next && d in next && Adjacent(m, x, d) ensures next[x] == next[d] {
      AdjacentBothWays(m, x, d);
    }
  }

  /** Places one player's chosen cities in the given order. */
  method PlaceOverride(books: Assignment, m: MapDefinition, e: RosterEntry, adjacency: map<CityId, set<CityId>>,
                       ghost roster: seq<RosterEntry>, ghost k: nat)
    returns (error: Option<SetupError>)
    requires e in roster && e.starting.Some? && IsLookup(m, adjacency)
    requires PlacedSoFar(m, roster, books.owners) && BooksAgree(books.owners, books.byPlayer)
    requires e.playerId in books.byPlayer && books.byPlayer[e.playerId] == []
    modifies books
    ensures error == None ==>
      && PlacedSoFar(m, roster, books.owners) && BooksAgree(books.owners, books.byPlayer)
      && Distinct(e.starting.value)
      && books.byPlayer == old(books.byPlayer)[e.playerId := e.starting.value]
    ensures error.Some? ==> Justified(m, roster, k, error.value) && !error.value.EmptyRoster? && !error.value.BadCityCount?
  {
    var p, cities := e.playerId, e.starting.value;
    var seen: set<CityId> := {};
    var i := 0;
    while i < |cities|
      invariant 0 <= i <= |cities| && seen == Elements(cities[..i])
      invariant PlacedSoFar(m, roster, books.owners) && BooksAgree(books.owners, books.byPlayer)
      invariant Distinct(cities[..i]) && books.byPlayer == old(books.byPlayer)[p := cities[..i]]
    {
      var c := cities[i];
      if c in seen {
        Twice(cities, i);
        assert multiset(e.starting.GetOr([]))[c] > 1;
        return Some(RepeatedCity(p, c));
      }
      seen := seen + {c};
      assert ChosenBy(roster, p, c) by { assert c in e.starting.GetOr([]); }
      assert c !in CitiesFor(books.owners, p);
      var problem := ValidateStartingCity(m, c, p, adjacency, books.owners, roster, k);
      if problem.Some? {
        return problem;
      }
      PlaceOne(m, roster, books.owners, c, p);
      BookOne(books.owners, books.byPlayer, p, c);
      assert cities[..i + 1] == cities[..i] + [c];
      ElementsAppend(cities[..i], c);
      books.owners := books.owners[c := p];
      books.byPlayer := books.byPlayer[p := books.byPlayer[p] + [c]];
      i := i + 1;
    }
    assert cities[..i] == cities;
    error := None;
  }

  lemma Twice<T>(xs: seq<T>, i: nat)
    requires i < |xs| && xs[i] in Elements(xs[..i])
    ensures multiset(xs)[xs[i]] > 1
  {
    assert xs == xs[..i] + [xs[i]] + xs[i + 1..];
    assert xs[i] in multiset(xs[..i]);
  }

  // ---- the whole assignment ----

  /** Opens a player's list and places the player's chosen cities, if any. */
  method PlaceEntry(books: Assignment, m: MapDefinition, e: RosterEntry, adjacency: map<CityId, set<CityId>>,
                    ghost roster: seq<RosterEntry>, k: nat)
    returns (error: Option<SetupError>)
    requires e in roster && IsLookup(m, adjacency) && e.playerId !in books.byPlayer
    requires PlacedSoFar(m, roster, books.owners) && BooksAgree(books.owners, books.byPlayer)
    modifies books
    ensures error == None ==>
      && PlacedSoFar(m, roster, books.owners) && BooksAgree(books.owners, books.byPlayer)
      && (e.starting.Some? ==> |e.starting.value| == k && Distinct(e.starting.value))
      && books.byPlayer == old(books.byPlayer)[e.playerId := e.starting.GetOr([])]
    ensures error.Some? ==> Justified(m, roster, k, error.value) && !error.value.EmptyRoster? && !error.value.BadCityCount?
  {
    StartEmpty(books.owners, books.byPlayer, e.playerId);
    books.byPlayer := books.byPlayer[e.playerId := []];
    if e.starting == None {
      return None;
    }
    if |e.starting.value| != k {
      return Some(WrongOverrideCount(e.playerId));
    }
    error := PlaceOverride(books, m, e, adjacency, roster, k);
  }

  /** The next entry of the roster: a player not seen before, with the player's chosen cities. */
  method PlaceNext(books: Assignment, m: MapDefinition, roster: seq<RosterEntry>, k: nat, n: nat, adjacency: map<CityId, set<CityId>>)
    returns (error: Option<SetupError>)
    requires n < |roster| && IsLookup(m, adjacency)
    requires PlacedSoFar(m, roster, books.owners) && OverridesPlaced(m, roster[..n], k, books.owners, books.byPlayer)
    modifies books
    ensures error == None ==>
      PlacedSoFar(m, roster, books.owners) && OverridesPlaced(m, roster[..n + 1], k, books.owners, books.byPlayer)
    ensures error.Some? ==> Justified(m, roster, k, error.value) && !error.value.EmptyRoster? && !error.value.BadCityCount?
  {
    var e := roster[n];
    PlayersGrow(roster, n);
    if e.playerId in books.byPlayer {
      assert exists i, j :: 0 <= i < j < |roster| && roster[i].playerId == roster[j].playerId == e.playerId;
      return Some(RepeatedPlayer(e.playerId));
    }
    ghost var earlier := books.byPlayer;
    var problem := PlaceEntry(books, m, e, adjacency, roster, k);
    if problem.Some? {
      return problem;
    }
    PlacedGrow(m, roster, k, n, earlier, books.owners, books.byPlayer);
    error := None;
  }

  method PlaceOverrides(books: Assignment, m: MapDefinition, roster: seq<RosterEntry>, k: nat, adjacency: map<CityId, set<CityId>>)
    returns (error: Option<SetupError>)
    requires IsLookup(m, adjacency) && books.owners == map[] && books.byPlayer == map[]
    modifies books
    ensures error == None ==> OverridesPlaced(m, roster, k, books.owners, books.byPlayer)
    ensures error.Some? ==> Justified(m, roster, k, error.value) && !error.value.EmptyRoster? && !error.value.BadCityCount?
  {
    var n := 0;
    while n < |roster|
      invariant 0 <= n <= |roster|
      invariant PlacedSoFar(m, roster, books.owners)
      invariant OverridesPlaced(m, roster[..n], k, books.owners, books.byPlayer)
    {
      var problem := PlaceNext(books, m, roster, k, n, adjacency);
      if problem.Some? {
        return problem;
      }
      n := n + 1;
    }
    assert roster[..n] == roster;
    error := None;
  }

  lemma PlayersGrow(roster: seq<RosterEntry>, n: nat)
    requires n < |roster|
    ensures Players(roster[..n + 1]) == Players(roster[..n]) + {roster[n].playerId}
    ensures roster[n].playerId in Players(roster[..n]) ==> exists i :: 0 <= i < n && roster[i].playerId == roster[n].playerId
  {
    assert roster[..n + 1] == roster[..n] + [roster[n]];
    forall q ensures q in Players(roster[..n + 1]) <==> q in Players(roster[..n]) || q == roster[n].playerId {
      if q in Players(roster[..n]) {
        var e :| e in roster[..n] && e.playerId == q;
        assert e in roster[..n + 1];
      }
      assert roster[n] in roster[..n + 1];
    }
    if roster[n].playerId in Players(roster[..n]) {
      var e :| e in roster[..n] && e.playerId == roster[n].playerId;
      var i :| 0 <= i < n && roster[..n][i] == e;
    }
  }

  lemma StartEmpty(owners: Owners, books: Books, p: PlayerId)
    requires BooksAgree(owners, books) && p !in books
    ensures BooksAgree(owners, books[p := []])
  {
    assert CitiesFor(owners, p) == {};
    assert Elements<CityId>([]) == {};
  }

  lemma PlacedGrow(m: MapDefinition, roster: seq<RosterEntry>, k: nat, n: nat, earlier: Books, owners: Owners, books: Books)
    requires n < |roster| && Shaped(roster[..n], k) && earlier.Keys == Players(roster[..n])
    requires forall i :: 0 <= i < n ==> roster[i].playerId in earlier && earlier[roster[i].playerId] == roster[i].starting.GetOr([])
    requires roster[n].playerId !in earlier
    requires roster[n].starting.Some? ==> |roster[n].starting.value| == k && Distinct(roster[n].starting.value)
    requires books == earlier[roster[n].playerId := roster[n].starting.GetOr([])]
    requires PlacedSoFar(m, roster, owners) && BooksAgree(owners, books)
    ensures OverridesPlaced(m, roster[..n + 1], k, owners, books)
  {
    PlayersGrow(roster, n);
    ShapedGrow(roster, k, n);
    var more := roster[..n + 1];
    forall i | 0 <= i < |more| ensures more[i].playerId in books && books[more[i].playerId] == more[i].starting.GetOr([]) {
      assert i < n ==> more[i].playerId in earlier && more[i].playerId != roster[n].playerId;
    }
  }

  lemma ShapedGrow(roster: seq<RosterEntry>, k: nat, n: nat)
    requires n < |roster| && Shaped(roster[..n], k) && roster[n].playerId !in Players(roster[..n])
    requires roster[n].starting.Some? ==> |roster[n].starting.value| == k && Distinct(roster[n].starting.value)
    ensures Shaped(roster[..n + 1], k)
  {
    var less, more := roster[..n], roster[..n + 1];
    forall i | 0 <= i < n ensures more[i] == less[i] && more[i].playerId != roster[n].playerId { assert less[i] in less; }
  }

  /**
   * Assigns every player's starting cities, or reports a justified error. It succeeds exactly when the roster is well
   * shaped and some fair assignment honours it, and then picks the first fair completion in search order.
   */
  method AssignStartingCities(m: MapDefinition, roster: seq<RosterEntry>, k: nat, adjacency: map<CityId, set<CityId>>, legal: seq<CityId>)
    returns (error: Option<SetupError>, books: Assignment, ghost chosen: Owners, ghost lists: Books, ghost picks: seq<CityId>)
    requires IsLookup(m, adjacency) && legal == Listing(LegalSpawns(m))
    ensures fresh(books)
    ensures error == None <==> Shaped(roster, k) && Assignable(m, roster, k)
    ensures error.Some? ==> Justified(m, roster, k, error.value) && !error.value.EmptyRoster? && !error.value.BadCityCount?
    ensures error == None ==>
      && Fair(m, roster, k, books.owners) && BooksAgree(books.owners, books.byPlayer) && books.byPlayer.Keys == Players(roster)
      && OverridesPlaced(m, roster, k, chosen, lists) && FirstPlay(m, chosen, SlotOrder(roster, lists, k), picks)
      && books.owners == Played(chosen, SlotOrder(roster, lists, k), picks)
      && books.byPlayer == Listed(lists, SlotOrder(roster, lists, k), picks)
  {
    books := new Assignment();
    error := PlaceOverrides(books, m, roster, k, adjacency);
    chosen, lists, picks := books.owners, books.byPlayer, [];
    if error.Some? {
      JustifiedMeansNone(m, roster, k, error.value);
      return;
    }
    SearchDecides(m, roster, k, chosen, lists);
    if |roster| * k > |legal| {
      TooFewCities(m, roster, k, legal);
      error := Some(CannotAssign);
      return;
    }
    ListingSorted(LegalSpawns(m));
    var order := BuildAssignmentOrder(roster, k, books.byPlayer);
    OrderedPlayersListed(roster, lists, k);
    var found;
    found, picks := books.AssignRemainingCities(order, legal, adjacency, 0, m);
    assert order[0..] == order;
    if found {
      PlayCompletes(m, chosen, order, picks);
      CompletionFair(m, roster, k, chosen, lists, books.owners);
      BookAll(m, chosen, lists, order, picks);
    } else {
      error := Some(CannotAssign);
    }
  }

  lemma {:induction false} OrderedPlayersListed(roster: seq<RosterEntry>, books: Books, slots: nat)
    requires Players(roster) <= books.Keys
    ensures forall p :: p in SlotOrder(roster, books, slots) ==> p in books
  {
    if slots > 0 {
      OrderedPlayersListed(roster, books, slots - 1);
      forall p | p in FilterMap(Lacks(books, slots - 1), roster) ensures p in books {
        FilterMapMember(Lacks(books, slots - 1), roster, p);
      }
    }
  }

  // ---- the first state ----

  function StartingYield(primary: Resource): Resources {
    Resources(if primary == Food then 3 else 1, if primary == Production then 3 else 1, if primary == Money then 3 else 1)
  }

  function OwnerIn(owners: Owners, c: CityId): Option<PlayerId> {
    if c in owners then Some(owners[c]) else None
  }

  function StartingCity(m: MapDefinition, c: CityId, owner: Option<PlayerId>): City
    requires c in m.cities
  {
    City(owner, CITY_POPULATION, StartingYield(m.cities[c].primary), Upgrades(0, 0, 0),
         if owner.Some? then OWNED_GARRISON else NEUTRAL_GARRISON, [])
  }

  /** A state at tick zero with fair starting cities, the configured resources, no armies and nobody leading. */
  ghost predicate FreshMatch(s: Snapshot, config: MatchConfig, roster: seq<RosterEntry>, m: MapDefinition) {
    && s.tick == 0 && s.armies == [] && s.victory == Victory(None, 0, config.threshold, None)
    && s.cities.Keys == m.cities.Keys && s.players.Keys == Players(roster)
    && (forall c :: c in s.cities ==> s.cities[c] == StartingCity(m, c, s.cities[c].owner))
    && (forall p :: p in s.players ==>
          s.players[p] == Player(Resources(config.food, config.production, config.money), s.players[p].citiesOwned, None, false))
    && Fair(m, roster, config.citiesPerPlayer, OwnersOf(s)) && ListsMatch(s)
  }

  /**
   * Every city of a fresh match makes three of its primary resource and one of each other, has ten inhabitants and no
   * upgrades, and is held by fifteen or, if nobody owns it, by five.
   */
  lemma FreshCities(s: Snapshot, config: MatchConfig, roster: seq<RosterEntry>, m: MapDefinition, c: CityId)
    requires FreshMatch(s, config, roster, m) && c in m.cities
    ensures c in s.cities
    ensures var base := match m.cities[c].primary
      case Food => Resources(3, 1, 1)
      case Production => Resources(1, 3, 1)
      case Money => Resources(1, 1, 3);
      s.cities[c] == City(s.cities[c].owner, 10, base, Upgrades(0, 0, 0), if s.cities[c].owner == None then 5 else 15, [])
  {
  }

  ghost function OwnersOf(s: Snapshot): Owners {
    map c | c in s.cities && s.cities[c].owner.Some? :: s.cities[c].owner.value
  }

  method FirstState(config: MatchConfig, m: MapDefinition, owners: Owners, lists: Books, ghost roster: seq<RosterEntry>) returns (s: Snapshot)
    requires Fair(m, roster, config.citiesPerPlayer, owners) && BooksAgree(owners, lists) && lists.Keys == Players(roster)
    ensures FreshMatch(s, config, roster, m) && OwnersOf(s) == owners
    ensures forall p :: p in s.players ==> s.players[p].citiesOwned == lists[p]
  {
    var cities := map c | c in m.cities :: StartingCity(m, c, OwnerIn(owners, c));
    var resources := Resources(config.food, config.production, config.money);
    var players := map p | p in lists :: Player(resources, lists[p], None, false);
    s := Snapshot(0, cities, [], players, Victory(None, 0, config.threshold, None));
    OwnersRead(m, roster, config.citiesPerPlayer, owners, lists, s);
  }

  /** Well-formed input is refused only when no fair assignment exists. */
  method InitializeMatchState(config: MatchConfig, roster: seq<RosterEntry>, m: MapDefinition) returns (result: Result<Snapshot, SetupError>)
    requires MapWellFormed(m)
    ensures result.Ok? <==>
      && roster != [] && MIN_STARTING_CITIES <= config.citiesPerPlayer <= MAX_STARTING_CITIES
      && Shaped(roster, config.citiesPerPlayer) && Assignable(m, roster, config.citiesPerPlayer)
    ensures result.Ok? ==> FreshMatch(result.value, config, roster, m)
    ensures result.Err? ==> Justified(m, roster, config.citiesPerPlayer, result.error)
  {
    var k := config.citiesPerPlayer;
    if roster == [] {
      return Err(EmptyRoster);
    }
    if !(MIN_STARTING_CITIES <= k <= MAX_STARTING_CITIES) {
      return Err(BadCityCount);
    }
    var adjacency := BuildAdjacencyLookup(m);
    var legal := LegalSpawnCityIds(m);
    var error, books, chosen, lists, picks := AssignStartingCities(m, roster, k, adjacency, legal);
    if error.Some? {
      return Err(error.value);
    }
    var s := FirstState(config, m, books.owners, books.byPlayer, roster);
    result := Ok(s);
  }

  lemma OwnersRead(m: MapDefinition, roster: seq<RosterEntry>, k: nat, owners: Owners, lists: Books, s: Snapshot)
    requires Fair(m, roster, k, owners) && BooksAgree(owners, lists)
    requires s.cities == map c | c in m.cities :: StartingCity(m, c, OwnerIn(owners, c))
    requires forall p :: p in s.players ==> p in lists && s.players[p].citiesOwned == lists[p]
    ensures OwnersOf(s) == owners && ListsMatch(s)
  {
    forall c ensures c in OwnersOf(s) <==> c in owners { }
    forall p | p in s.players ensures Elements(s.players[p].citiesOwned) == OwnedCities(s.cities, p) {
      assert CitiesFor(owners, p) == OwnedCities(s.cities, p);
    }
  }

  // ---- the first state starts every run ----

  /** A fresh match satisfies the invariant that runs keep. */
  lemma FreshMatchIsReady(s: Snapshot, config: MatchConfig, roster: seq<RosterEntry>, m: MapDefinition)
    requires MapWellFormed(m) && FreshMatch(s, config, roster, m) && 0 < config.citiesPerPlayer
    ensures StateInv(s, m) && EliminationOk(s) && NamesApart(s.players)
  {
    forall p | p in s.players ensures Present(s, p) { FreshPlayerPresent(s, config, roster, m, p); }
    FreshOwnersKnown(s, config, roster, m);
  }

  lemma FreshOwnersKnown(s: Snapshot, config: MatchConfig, roster: seq<RosterEntry>, m: MapDefinition)
    requires FreshMatch(s, config, roster, m)
    ensures OwnersKnown(s)
  {
    var owners := OwnersOf(s);
    forall c | c in s.cities && s.cities[c].owner.Some? ensures s.cities[c].owner.value in s.players {
      assert c in owners && owners[c] in Players(roster);
    }
  }

  lemma FreshPlayerPresent(s: Snapshot, config: MatchConfig, roster: seq<RosterEntry>, m: MapDefinition, p: PlayerId)
    requires FreshMatch(s, config, roster, m) && 0 < config.citiesPerPlayer && p in s.players
    ensures Present(s, p)
  {
    var owners := OwnersOf(s);
    assert CitiesFor(owners, p) != {};
    var c := Pick(CitiesFor(owners, p));
    assert s.cities[c].owner == Some(p);
  }

  /** Whatever a fresh match is recorded with, its record satisfies the invariant of all record runs. */
  lemma FreshRecordIsReady(r: Record, config: MatchConfig, roster: seq<RosterEntry>, m: MapDefinition)
    requires MapWellFormed(m) && FreshMatch(r.state, config, roster, m) && 0 < config.citiesPerPlayer
    requires r.messages == [] && r.treaties == [] && r.leagues == [] && PlainNames(Players(roster))
    ensures RecordInv(r, m, config.threshold)
    ensures r.state.victory == Victory(None, 0, config.threshold, None)
  {
    FreshMatchIsReady(r.state, config, roster, m);
    forall p, id ensures !InLeague(r.leagues, id, p) { }
  }
}
