/** City control changes hands one city at a time, and every player's list follows. */
module ControlFacts {
  import opened Collections
  import opened Ordering
  import opened Domain
  import opened Phases

  /** Each player lists exactly the cities it owns, once each. */
  ghost predicate ListsMatch(s: Snapshot) {
    forall p :: p in s.players ==>
      Distinct(s.players[p].citiesOwned) && Elements(s.players[p].citiesOwned) == OwnedCities(s.cities, p)
  }

  function StruckFrom(players: map<PlayerId, Player>, p: Option<PlayerId>, c: CityId): map<PlayerId, Player> {
    if p == None || p.value !in players then players
    else players[p.value := players[p.value].(citiesOwned := Filter(Outside({c}), players[p.value].citiesOwned))]
  }

  ghost function ListedFor(players: map<PlayerId, Player>, p: PlayerId, c: CityId): map<PlayerId, Player> {
    if p !in players || c in players[p].citiesOwned then players
    else players[p := players[p].(citiesOwned := Listing(Elements(players[p].citiesOwned + [c])))]
  }

  // ---- who holds a city ----

  lemma OnlyOccupant(s: Snapshot, c: CityId, p: PlayerId)
    requires c in s.cities && p in Occupants(s.armies, c) && |Occupants(s.armies, c)| == 1
    ensures HolderOf(s, c) == if p in s.players then Some(p) else s.cities[c].owner
  {
    var occupants := Occupants(s.armies, c);
    assert |occupants - {p}| == 0;
    assert occupants == {p};
    forall q | occupants == {q} ensures q == p { assert q in {p}; }
  }

  lemma NoSoleOccupant(s: Snapshot, c: CityId)
    requires c in s.cities && |Occupants(s.armies, c)| != 1
    ensures HolderOf(s, c) == s.cities[c].owner
  {
  }

  // ---- revising one player's list ----

  lemma {:induction false} FilterSorted(keep: string -> bool, xs: seq<string>)
    requires SortedBy(STRING_ORDER, xs)
    ensures SortedBy(STRING_ORDER, Filter(keep, xs))
  {
    if xs != [] {
      var init, last := xs[..|xs| - 1], xs[|xs| - 1];
      FilterSorted(keep, init);
      var kept := Filter(keep, init);
      forall k | 0 <= k < |kept| ensures STRING_ORDER(kept[k], last) {
        FilterMember(keep, init, kept[k]);
        var j :| 0 <= j < |init| && init[j] == kept[k];
        assert STRING_ORDER(xs[j], xs[|xs| - 1]);
      }
    }
  }

  lemma FilterElements<T>(keep: T -> bool, xs: seq<T>)
    ensures forall x :: x in Elements(Filter(keep, xs)) <==> x in Elements(xs) && keep(x)
  {
    forall x ensures x in Elements(Filter(keep, xs)) <==> x in Elements(xs) && keep(x) { FilterMember(keep, xs, x); }
  }

  lemma ListingRemove(ids: set<CityId>, c: CityId)
    ensures Filter(Outside({c}), Listing(ids)) == Listing(ids - {c})
  {
    ListingSorted(ids);
    FilterSorted(Outside({c}), Listing(ids));
    FilterDistinct(Outside({c}), Listing(ids));
    FilterElements(Outside({c}), Listing(ids));
    ListingUnique(ids - {c}, Filter(Outside({c}), Listing(ids)));
  }

  lemma RevisedElements(listed: seq<CityId>, lost: set<CityId>, gained: set<CityId>)
    requires Distinct(listed)
    ensures Distinct(Revised(listed, lost, gained))
    ensures Elements(Revised(listed, lost, gained)) == (Elements(listed) - lost) + gained
  {
    var kept := Filter(Outside(lost), listed);
    FilterElements(Outside(lost), listed);
    FilterDistinct(Outside(lost), listed);
    ListingSorted(Elements(kept) + gained);
  }

  lemma RevisedLose(listed: seq<CityId>, lost: set<CityId>, gained: set<CityId>, c: CityId)
    requires Distinct(listed) && c !in gained
    ensures Filter(Outside({c}), Revised(listed, lost, gained)) == Revised(listed, lost + {c}, gained)
  {
    FilterFilter(Outside(lost), Outside({c}), Outside(lost + {c}), listed);
    if gained != {} {
      var kept := Filter(Outside(lost), listed);
      ListingRemove(Elements(kept) + gained, c);
      FilterElements(Outside({c}), kept);
      assert Elements(kept) + gained - {c} == Elements(Filter(Outside({c}), kept)) + gained;
    }
  }

  lemma RevisedGain(listed: seq<CityId>, lost: set<CityId>, gained: set<CityId>, c: CityId)
    requires Distinct(listed)
    ensures Listing(Elements(Revised(listed, lost, gained) + [c])) == Revised(listed, lost, gained + {c})
  {
    RevisedElements(listed, lost, gained);
    ElementsAppend(Revised(listed, lost, gained), c);
    FilterElements(Outside(lost), listed);
    assert Elements(Filter(Outside(lost), listed)) + (gained + {c}) == Elements(Revised(listed, lost, gained)) + {c};
    assert c in gained + {c};
  }

  // ---- the loop over the cities ----

  ghost function ListAfter(s: Snapshot, p: PlayerId, done: set<CityId>): seq<CityId>
    requires p in s.players
  {
    Revised(s.players[p].citiesOwned, Lost(s, p) * done, Gained(s, p) * done)
  }

  ghost predicate CitiesMoved(s: Snapshot, cities: map<CityId, City>, done: set<CityId>) {
    && cities.Keys == s.cities.Keys
    && (forall c :: c in cities && c in done ==> cities[c] == s.cities[c].(owner := HolderOf(s, c)))
    && (forall c :: c in cities && c !in done ==> cities[c] == s.cities[c])
  }

  ghost predicate ListsMoved(s: Snapshot, players: map<PlayerId, Player>, done: set<CityId>) {
    && players.Keys == s.players.Keys
    && forall p :: p in players ==> players[p] == s.players[p].(citiesOwned := ListAfter(s, p, done))
  }

  /** Control of the `done` cities has been settled. */
  ghost predicate ControlMoved(s: Snapshot, cities: map<CityId, City>, players: map<PlayerId, Player>, done: set<CityId>) {
    CitiesMoved(s, cities, done) && ListsMoved(s, players, done)
  }

  lemma ControlUnmoved(s: Snapshot)
    requires ListsMatch(s)
    ensures ControlMoved(s, s.cities, s.players, {})
  {
    forall p | p in s.players ensures s.players[p].citiesOwned == ListAfter(s, p, {}) {
      FilterAll(Outside(Lost(s, p) * {}), s.players[p].citiesOwned);
    }
  }

  lemma SameWithin(s: Snapshot, p: PlayerId, done: set<CityId>, c: CityId)
    requires p in s.players && c !in Lost(s, p) && c !in Gained(s, p)
    ensures ListAfter(s, p, done + {c}) == ListAfter(s, p, done)
  {
    assert Lost(s, p) * (done + {c}) == Lost(s, p) * done;
    assert Gained(s, p) * (done + {c}) == Gained(s, p) * done;
  }

  lemma ControlStays(s: Snapshot, cities: map<CityId, City>, players: map<PlayerId, Player>, done: set<CityId>, c: CityId)
    requires ControlMoved(s, cities, players, done) && c in s.cities && c !in done
    requires HolderOf(s, c) == s.cities[c].owner
    ensures ControlMoved(s, cities, players, done + {c})
  {
    forall p | p in players ensures ListAfter(s, p, done + {c}) == ListAfter(s, p, done) { SameWithin(s, p, done, c); }
  }

  lemma ListLoses(s: Snapshot, p: PlayerId, done: set<CityId>, c: CityId)
    requires ListsMatch(s) && p in s.players && c in Lost(s, p)
    ensures Filter(Outside({c}), ListAfter(s, p, done)) == ListAfter(s, p, done + {c})
  {
    RevisedLose(s.players[p].citiesOwned, Lost(s, p) * done, Gained(s, p) * done, c);
    assert Lost(s, p) * (done + {c}) == Lost(s, p) * done + {c};
    assert Gained(s, p) * (done + {c}) == Gained(s, p) * done;
  }

  lemma ListGains(s: Snapshot, p: PlayerId, done: set<CityId>, c: CityId)
    requires ListsMatch(s) && p in s.players && c in Gained(s, p) && c !in done
    ensures Distinct(ListAfter(s, p, done)) && c !in ListAfter(s, p, done)
    ensures Listing(Elements(ListAfter(s, p, done) + [c])) == ListAfter(s, p, done + {c})
  {
    RevisedElements(s.players[p].citiesOwned, Lost(s, p) * done, Gained(s, p) * done);
    assert c !in Elements(ListAfter(s, p, done));
    RevisedGain(s.players[p].citiesOwned, Lost(s, p) * done, Gained(s, p) * done, c);
    assert Lost(s, p) * (done + {c}) == Lost(s, p) * done;
    assert Gained(s, p) * (done + {c}) == Gained(s, p) * done + {c};
  }

  ghost predicate FallsTo(s: Snapshot, c: CityId, p: PlayerId) {
    c in s.cities && p in s.players && HolderOf(s, c) == Some(p) && s.cities[c].owner != Some(p)
  }

  lemma CityFalls(s: Snapshot, cities: map<CityId, City>, done: set<CityId>, c: CityId, p: PlayerId)
    requires CitiesMoved(s, cities, done) && FallsTo(s, c, p) && c !in done
    ensures CitiesMoved(s, cities[c := cities[c].(owner := Some(p))], done + {c})
  {
  }

  /** The list of one player, before and after city c falls from `owner` to `p`. */
  lemma ListSettles(s: Snapshot, done: set<CityId>, c: CityId, p: PlayerId, q: PlayerId)
    requires ListsMatch(s) && FallsTo(s, c, p) && c !in done && q in s.players
    ensures ListAfter(s, q, done + {c}) ==
      if q == p then Listing(Elements(ListAfter(s, q, done) + [c]))
      else if s.cities[c].owner == Some(q) then Filter(Outside({c}), ListAfter(s, q, done))
      else ListAfter(s, q, done)
    ensures q == p ==> Distinct(ListAfter(s, q, done)) && c !in ListAfter(s, q, done)
  {
    if q == p {
      ListGains(s, p, done, c);
    } else if s.cities[c].owner == Some(q) {
      ListLoses(s, q, done, c);
    } else {
      SameWithin(s, q, done, c);
    }
  }

  lemma ListsFall(s: Snapshot, players: map<PlayerId, Player>, done: set<CityId>, c: CityId, p: PlayerId)
    requires ListsMatch(s) && ListsMoved(s, players, done) && FallsTo(s, c, p) && c !in done
    ensures ListsMoved(s, ListedFor(StruckFrom(players, s.cities[c].owner, c), p, c), done + {c})
  {
    var settled := ListedFor(StruckFrom(players, s.cities[c].owner, c), p, c);
    SettledKeys(players, s.cities[c].owner, c, p);
    AllListsFall(s, players, done, c, p, settled);
  }

  lemma SettledKeys(players: map<PlayerId, Player>, owner: Option<PlayerId>, c: CityId, p: PlayerId)
    ensures ListedFor(StruckFrom(players, owner, c), p, c).Keys == players.Keys
  {
  }

  lemma AllListsFall(s: Snapshot, players: map<PlayerId, Player>, done: set<CityId>, c: CityId, p: PlayerId,
                     settled: map<PlayerId, Player>)
    requires ListsMatch(s) && ListsMoved(s, players, done) && FallsTo(s, c, p) && c !in done && settled.Keys == players.Keys
    requires settled == ListedFor(StruckFrom(players, s.cities[c].owner, c), p, c)
    ensures ListsMoved(s, settled, done + {c})
  {
    forall q | q in settled ensures settled[q] == s.players[q].(citiesOwned := ListAfter(s, q, done + {c})) {
      ListFalls(s, players, done, c, p, q);
    }
  }

  lemma StruckStaysDistinct(s: Snapshot, players: map<PlayerId, Player>, done: set<CityId>, c: CityId, p: PlayerId)
    requires ListsMatch(s) && ListsMoved(s, players, done) && FallsTo(s, c, p) && c !in done
    ensures p in StruckFrom(players, s.cities[c].owner, c) && Distinct(StruckFrom(players, s.cities[c].owner, c)[p].citiesOwned)
  {
    ListSettles(s, done, c, p, p);
  }

  lemma ListFalls(s: Snapshot, players: map<PlayerId, Player>, done: set<CityId>, c: CityId, p: PlayerId, q: PlayerId)
    requires ListsMatch(s) && players.Keys == s.players.Keys && FallsTo(s, c, p) && c !in done && q in players
    requires players[q] == s.players[q].(citiesOwned := ListAfter(s, q, done))
    ensures ListedFor(StruckFrom(players, s.cities[c].owner, c), p, c)[q] == s.players[q].(citiesOwned := ListAfter(s, q, done + {c}))
  {
    ListSettles(s, done, c, p, q);
  }

  lemma ControlDone(s: Snapshot, cities: map<CityId, City>, players: map<PlayerId, Player>)
    requires ControlMoved(s, cities, players, s.cities.Keys)
    ensures cities == ControlTransferred(s).cities && players == ControlTransferred(s).players
  {
    CitiesDone(s, cities);
    ListsDone(s, players);
  }

  lemma CitiesDone(s: Snapshot, cities: map<CityId, City>)
    requires CitiesMoved(s, cities, s.cities.Keys)
    ensures cities == ControlTransferred(s).cities
  {
  }

  lemma ListsDone(s: Snapshot, players: map<PlayerId, Player>)
    requires ListsMoved(s, players, s.cities.Keys)
    ensures players == ControlTransferred(s).players
  {
    forall p | p in players ensures ListAfter(s, p, s.cities.Keys) == Holdings(s, p) { AllSettled(s, p); }
  }

  lemma AllSettled(s: Snapshot, p: PlayerId)
    requires p in s.players
    ensures ListAfter(s, p, s.cities.Keys) == Holdings(s, p)
  {
    assert Lost(s, p) * s.cities.Keys == Lost(s, p);
    assert Gained(s, p) * s.cities.Keys == Gained(s, p);
  }
}
