/** The backtracking search for starting cities: what it may choose, what it finds, and when nothing can be found. */
module SpawnSearch {
  import opened Collections
  import opened Ordering
  import opened Domain
  import opened Phases
  import opened SiegeSteps

  type Owners = map<CityId, PlayerId>
  type Books = map<PlayerId, seq<CityId>>

  predicate LegalSpawn(m: MapDefinition, c: CityId) {
    c in m.cities && m.cities[c].spawnAllowed && m.cities[c].region != "Ireland"
  }

  ghost function LegalSpawns(m: MapDefinition): set<CityId> {
    set c | c in m.cities && LegalSpawn(m, c)
  }

  /** The city is free, and every owned neighbour belongs to the same player. */
  ghost predicate Fits(m: MapDefinition, owners: Owners, c: CityId, p: PlayerId) {
    c !in owners && forall d :: d in owners && Adjacent(m, c, d) ==> owners[d] == p
  }

  // ---- picks, one after the other ----

  /** Picks that the search may make, in turn, for the players in the order. */
  ghost predicate Plays(m: MapDefinition, owners: Owners, order: seq<PlayerId>, picks: seq<CityId>)
    decreases |order|
  {
    |picks| == |order|
    && (order == [] ||
        (LegalSpawn(m, picks[0]) && Fits(m, owners, picks[0], order[0])
         && Plays(m, owners[picks[0] := order[0]], order[1..], picks[1..])))
  }

  ghost function Played(owners: Owners, order: seq<PlayerId>, picks: seq<CityId>): Owners
    decreases |order|
  {
    if order == [] || picks == [] then owners else Played(owners[picks[0] := order[0]], order[1..], picks[1..])
  }

  ghost function Listed(books: Books, order: seq<PlayerId>, picks: seq<CityId>): Books
    decreases |order|
  {
    if order == [] || picks == [] then books else Listed(WithCity(books, order[0], picks[0]), order[1..], picks[1..])
  }

  ghost function WithCity(books: Books, p: PlayerId, c: CityId): Books {
    books[p := (if p in books then books[p] else []) + [c]]
  }

  /** Comparing pick lists at the first difference. */
  ghost predicate NotAfter(xs: seq<CityId>, ys: seq<CityId>)
    decreases |xs|
  {
    xs == [] || ys == [] || (if xs[0] == ys[0] then NotAfter(xs[1..], ys[1..]) else StrLe(xs[0], ys[0]))
  }

  /** The picks are allowed, and no allowed picks come before them. */
  ghost predicate FirstPlay(m: MapDefinition, owners: Owners, order: seq<PlayerId>, picks: seq<CityId>) {
    Plays(m, owners, order, picks) && forall other :: Plays(m, owners, order, other) ==> NotAfter(picks, other)
  }

  ghost predicate Playable(m: MapDefinition, owners: Owners, order: seq<PlayerId>) {
    exists picks :: Plays(m, owners, order, picks)
  }

  // ---- assignments, all at once ----

  ghost predicate Extends(a: Owners, owners: Owners) {
    forall c :: c in owners ==> c in a && a[c] == owners[c]
  }

  ghost function NewFor(a: Owners, owners: Owners, p: PlayerId): set<CityId> {
    set c | c in a && c !in owners && a[c] == p
  }

  function TurnOf(p: PlayerId): PlayerId -> int {
    (q: PlayerId) => if q == p then 1 else 0
  }

  /** How often a player's turn comes. */
  function Turns(order: seq<PlayerId>, p: PlayerId): int {
    SumBy(TurnOf(p), order)
  }

  /** A larger assignment whose new cities are legal, peaceful, and as many for each player as the order asks. */
  ghost predicate Completes(m: MapDefinition, a: Owners, owners: Owners, order: seq<PlayerId>) {
    && Extends(a, owners)
    && (forall c :: c in a && c !in owners ==> LegalSpawn(m, c))
    && (forall c, d :: c in a && d in a && c !in owners && Adjacent(m, c, d) ==> a[c] == a[d])
    && (forall p :: |NewFor(a, owners, p)| == Turns(order, p))
  }

  ghost predicate Completable(m: MapDefinition, owners: Owners, order: seq<PlayerId>) {
    exists a :: Completes(m, a, owners, order)
  }

  lemma AdjacentBothWays(m: MapDefinition, c: CityId, d: CityId)
    ensures Adjacent(m, c, d) <==> Adjacent(m, d, c)
  {
    if AdjacentBy(m.edges, c, d) {
      var e :| e in m.edges && Joins(e, c, d);
      assert Joins(e, d, c);
    }
    if AdjacentBy(m.edges, d, c) {
      var e :| e in m.edges && Joins(e, d, c);
      assert Joins(e, c, d);
    }
  }

  lemma NewForStep(a: Owners, owners: Owners, c: CityId, p: PlayerId, q: PlayerId)
    requires c !in owners && c in a && a[c] == p
    ensures NewFor(a, owners, q) == NewFor(a, owners[c := p], q) + (if q == p then {c} else {})
    ensures |NewFor(a, owners, q)| == |NewFor(a, owners[c := p], q)| + (if q == p then 1 else 0)
  {
    assert NewFor(a, owners, q) == NewFor(a, owners[c := p], q) + (if q == p then {c} else {});
    assert c !in NewFor(a, owners[c := p], q);
  }

  lemma HeadCount(order: seq<PlayerId>, q: PlayerId)
    requires order != []
    ensures Turns(order, q) == Turns(order[1..], q) + if q == order[0] then 1 else 0
  {
    var head := [order[0]];
    assert order == head + order[1..];
    SumByConcat(TurnOf(q), head, order[1..]);
    assert head[..|head| - 1] == [];
    assert SumBy(TurnOf(q), []) == 0;
  }

  lemma CompleteStep(m: MapDefinition, a: Owners, owners: Owners, order: seq<PlayerId>, c: CityId)
    requires order != [] && LegalSpawn(m, c) && Fits(m, owners, c, order[0])
    requires Completes(m, a, owners[c := order[0]], order[1..])
    ensures Completes(m, a, owners, order)
  {
    var p, next := order[0], owners[c := order[0]];
    assert c in next && next[c] == p;
    forall q ensures |NewFor(a, owners, q)| == Turns(order, q) {
      NewForStep(a, owners, c, p, q);
      HeadCount(order, q);
    }
    forall x | x in owners ensures x in a && a[x] == owners[x] { assert x in next && next[x] == owners[x]; }
    forall x, d | x in a && d in a && x !in owners && Adjacent(m, x, d) ensures a[x] == a[d] {
      AdjacentBothWays(m, x, d);
    }
  }

  /** The first player of the order has a new city in any completion, and it fits right now. */
  lemma CompleteFirst(m: MapDefinition, a: Owners, owners: Owners, order: seq<PlayerId>) returns (c: CityId)
    requires order != [] && Completes(m, a, owners, order)
    ensures LegalSpawn(m, c) && Fits(m, owners, c, order[0]) && Completes(m, a, owners[c := order[0]], order[1..])
  {
    HeadCount(order, order[0]);
    SumByNonNegative(TurnOf(order[0]), order[1..]);
    assert NewFor(a, owners, order[0]) != {};
    c := Pick(NewFor(a, owners, order[0]));
    forall q ensures |NewFor(a, owners[c := order[0]], q)| == Turns(order[1..], q) {
      NewForStep(a, owners, c, order[0], q);
      HeadCount(order, q);
    }
  }

  lemma {:induction false} PlayCompletes(m: MapDefinition, owners: Owners, order: seq<PlayerId>, picks: seq<CityId>)
    requires Plays(m, owners, order, picks)
    ensures Completes(m, Played(owners, order, picks), owners, order)
    decreases |order|
  {
    if order == [] {
      forall p ensures NewFor(owners, owners, p) == {} { }
    } else {
      PlayCompletes(m, owners[picks[0] := order[0]], order[1..], picks[1..]);
      CompleteStep(m, Played(owners, order, picks), owners, order, picks[0]);
    }
  }

  lemma {:induction false} CompletionPlays(m: MapDefinition, a: Owners, owners: Owners, order: seq<PlayerId>) returns (picks: seq<CityId>)
    requires Completes(m, a, owners, order)
    ensures Plays(m, owners, order, picks)
    decreases |order|
  {
    if order == [] {
      picks := [];
    } else {
      var c := CompleteFirst(m, a, owners, order);
      var rest := CompletionPlays(m, a, owners[c := order[0]], order[1..]);
      picks := [c] + rest;
      assert picks[1..] == rest;
    }
  }

  /** The search space misses nothing: some picks are allowed exactly when some completion exists. */
  lemma PlayableIffCompletable(m: MapDefinition, owners: Owners, order: seq<PlayerId>)
    ensures Playable(m, owners, order) <==> Completable(m, owners, order)
  {
    if Playable(m, owners, order) {
      var picks :| Plays(m, owners, order, picks);
      PlayCompletes(m, owners, order, picks);
    }
    if Completable(m, owners, order) {
      var a :| Completes(m, a, owners, order);
      var picks := CompletionPlays(m, a, owners, order);
    }
  }

  // ---- the two ledgers ----

  ghost function CitiesFor(owners: Owners, p: PlayerId): set<CityId> {
    set c | c in owners && owners[c] == p
  }

  /** Each player's list names the player's cities once each, and every owner has a list. */
  ghost predicate BooksAgree(owners: Owners, books: Books) {
    && (forall p :: p in books ==> Distinct(books[p]) && Elements(books[p]) == CitiesFor(owners, p))
    && (forall c :: c in owners ==> owners[c] in books)
  }

  lemma BookOne(owners: Owners, books: Books, p: PlayerId, c: CityId)
    requires BooksAgree(owners, books) && p in books && c !in owners
    ensures BooksAgree(owners[c := p], WithCity(books, p, c))
  {
    var next, booked := owners[c := p], WithCity(books, p, c);
    forall q | q in booked ensures Distinct(booked[q]) && Elements(booked[q]) == CitiesFor(next, q) {
      assert CitiesFor(next, q) == CitiesFor(owners, q) + if q == p then {c} else {};
      if q == p {
        ElementsAppend(books[p], c);
        assert c !in Elements(books[p]);
      }
    }
  }

  lemma {:induction false} BookAll(m: MapDefinition, owners: Owners, books: Books, order: seq<PlayerId>, picks: seq<CityId>)
    requires Plays(m, owners, order, picks) && BooksAgree(owners, books) && forall p :: p in order ==> p in books
    ensures BooksAgree(Played(owners, order, picks), Listed(books, order, picks))
    ensures Listed(books, order, picks).Keys == books.Keys
    decreases |order|
  {
    if order != [] {
      assert order[0] in order;
      BookOne(owners, books, order[0], picks[0]);
      assert WithCity(books, order[0], picks[0]).Keys == books.Keys;
      forall p | p in order[1..] ensures p in books { assert p in order; }
      BookAll(m, owners[picks[0] := order[0]], WithCity(books, order[0], picks[0]), order[1..], picks[1..]);
    }
  }

  // ---- the search ----

  /** Adjacency sets of every city of the map. */
  ghost predicate IsLookup(m: MapDefinition, adjacency: map<CityId, set<CityId>>) {
    adjacency.Keys == m.cities.Keys && forall a, b :: Linked(adjacency, a, b) <==> Adjacent(m, a, b)
  }

  lemma NoPlayThrough(m: MapDefinition, owners: Owners, order: seq<PlayerId>, c: CityId)
    requires order != []
    requires !(LegalSpawn(m, c) && Fits(m, owners, c, order[0]) && Playable(m, owners[c := order[0]], order[1..]))
    ensures forall picks :: Plays(m, owners, order, picks) ==> picks[0] != c
  {
    forall picks | Plays(m, owners, order, picks) ensures picks[0] != c {
      assert Plays(m, owners[picks[0] := order[0]], order[1..], picks[1..]);
    }
  }

  /** What was ruled out so far comes first, so the first play found is the first of all. */
  lemma FirstOfAll(m: MapDefinition, owners: Owners, order: seq<PlayerId>, legal: seq<CityId>, i: nat, rest: seq<CityId>)
    requires order != [] && i < |legal| && SortedBy(STRING_ORDER, legal) && Elements(legal) == LegalSpawns(m)
    requires Fits(m, owners, legal[i], order[0])
    requires FirstPlay(m, owners[legal[i] := order[0]], order[1..], rest)
    requires forall j, picks :: 0 <= j < i && Plays(m, owners, order, picks) ==> picks[0] != legal[j]
    ensures FirstPlay(m, owners, order, [legal[i]] + rest)
  {
    var found := [legal[i]] + rest;
    assert found[1..] == rest;
    assert legal[i] in Elements(legal);
    forall other | Plays(m, owners, order, other) ensures NotAfter(found, other) {
      assert other[0] in Elements(legal);
      var j :| 0 <= j < |legal| && legal[j] == other[0];
      if other[0] != legal[i] {
        assert STRING_ORDER(legal[i], legal[j]);
      } else {
        assert Plays(m, owners[legal[i] := order[0]], order[1..], other[1..]);
      }
    }
  }

  lemma PlaysStartLegal(m: MapDefinition, owners: Owners, order: seq<PlayerId>, legal: seq<CityId>)
    requires order != [] && Elements(legal) == LegalSpawns(m)
    ensures forall picks :: Plays(m, owners, order, picks) ==> exists j :: 0 <= j < |legal| && legal[j] == picks[0]
  {
    forall picks | Plays(m, owners, order, picks) ensures exists j :: 0 <= j < |legal| && legal[j] == picks[0] {
      assert picks[0] in Elements(legal);
    }
  }

  class Assignment {
    var owners: Owners
    var byPlayer: Books

    constructor ()
      ensures owners == map[] && byPlayer == map[]
    {
      owners, byPlayer := map[], map[];
    }

    method CanAssignCity(c: CityId, p: PlayerId, adjacency: map<CityId, set<CityId>>, ghost m: MapDefinition) returns (ok: bool)
      requires IsLookup(m, adjacency) && c in adjacency
      ensures ok <==> Fits(m, owners, c, p)
    {
      if c in owners {
        return false;
      }
      var todo := adjacency[c];
      while todo != {}
        invariant todo <= adjacency[c]
        invariant forall d :: d in adjacency[c] - todo && d in owners ==> owners[d] == p
      {
        var d :| d in todo;
        assert Linked(adjacency, c, d);
        if d in owners && owners[d] != p {
          return false;
        }
        todo := todo - {d};
      }
      forall d | d in owners && Adjacent(m, c, d) ensures owners[d] == p {
        assert Linked(adjacency, c, d);
        assert d in adjacency[c] - todo;
      }
      ok := true;
    }

    /**
     * Tries every legal city for the player whose turn it is, then the turns after it, and undoes what fails.
     * It finds the first allowed picks if there are any; otherwise both ledgers are exactly as on entry.
     */
    method AssignRemainingCities(order: seq<PlayerId>, legal: seq<CityId>, adjacency: map<CityId, set<CityId>>, index: nat,
                                 ghost m: MapDefinition)
      returns (found: bool, ghost picks: seq<CityId>)
      requires index <= |order| && (forall p :: p in order ==> p in byPlayer)
      requires IsLookup(m, adjacency) && SortedBy(STRING_ORDER, legal) && Elements(legal) == LegalSpawns(m)
      modifies this
      ensures found <==> Playable(m, old(owners), order[index..])
      ensures found ==> FirstPlay(m, old(owners), order[index..], picks)
      ensures found ==> owners == Played(old(owners), order[index..], picks) && byPlayer == Listed(old(byPlayer), order[index..], picks)
      ensures !found ==> owners == old(owners) && byPlayer == old(byPlayer)
      decreases |order| - index
    {
      ghost var turns := order[index..];
      picks := [];
      if index == |order| {
        assert Plays(m, owners, turns, []);
        return true, [];
      }
      var p := order[index];
      assert p == turns[0] && turns[1..] == order[index + 1..];
      ghost var start, books := owners, byPlayer;
      var i := 0;
      while i < |legal|
        invariant 0 <= i <= |legal| && owners == start && byPlayer == books
        invariant forall j, any :: 0 <= j < i && Plays(m, start, turns, any) ==> any[0] != legal[j]
      {
        var c := legal[i];
        assert c in Elements(legal);
        var fits := CanAssignCity(c, p, adjacency, m);
        if fits {
          owners := owners[c := p];
          byPlayer := byPlayer[p := byPlayer[p] + [c]];
          ghost var rest;
          found, rest := AssignRemainingCities(order, legal, adjacency, index + 1, m);
          if found {
            FirstOfAll(m, start, turns, legal, i, rest);
            picks := [c] + rest;
            assert picks[1..] == rest;
            return true, picks;
          }
          byPlayer := byPlayer[p := byPlayer[p][..|byPlayer[p]| - 1]];
          owners := owners - {c};
          assert byPlayer == books && owners == start;
        }
        NoPlayThrough(m, start, turns, c);
        i := i + 1;
      }
      found := false;
      PlaysStartLegal(m, start, turns, legal);
    }
  }
}
