/** Counting cities by side and finding the sole leader. */
module VictorySteps {
  import opened Collections
  import opened Domain
  import opened Leadership

  ghost function CitiesWithin<K(!new)>(s: Snapshot, key: PlayerId -> K, seen: set<CityId>, k: K): set<CityId> {
    set c | c in seen && Counted(s, c) && key(s.cities[c].owner.value) == k
  }

  ghost predicate CountsMatch<K(!new)>(s: Snapshot, key: PlayerId -> K, seen: set<CityId>, counts: map<K, int>) {
    forall k :: (k in counts <==> |CitiesWithin(s, key, seen, k)| > 0)
      && (k in counts ==> counts[k] == |CitiesWithin(s, key, seen, k)|)
  }

  /** How many counted cities each side holds; sides without a city are absent. */
  method CountCities<K(!new,==)>(s: Snapshot, key: PlayerId -> K) returns (counts: map<K, int>)
    ensures counts.Keys == Sides(s, key)
    ensures forall k :: k in counts ==> counts[k] == HeldBy(s, key)(k)
  {
    counts := map[];
    var todo := s.cities.Keys;
    ghost var seen: set<CityId> := {};
    assert CountsMatch(s, key, seen, counts);
    while todo != {}
      invariant seen !! todo && s.cities.Keys <= seen + todo && seen <= s.cities.Keys && todo <= s.cities.Keys
      invariant CountsMatch(s, key, seen, counts)
    {
      var c :| c in todo;
      CountStep(s, key, seen, c, counts);
      if s.cities[c].owner.Some? && s.cities[c].owner.value in s.players {
        var side := key(s.cities[c].owner.value);
        counts := counts[side := (if side in counts then counts[side] else 0) + 1];
      }
      todo := todo - {c};
      seen := seen + {c};
    }
    assert seen == s.cities.Keys;
    CountsComplete(s, key, counts);
  }

  lemma CountStep<K(!new)>(s: Snapshot, key: PlayerId -> K, seen: set<CityId>, c: CityId, counts: map<K, int>)
    requires c in s.cities && c !in seen && CountsMatch(s, key, seen, counts)
    ensures !Counted(s, c) ==> CountsMatch(s, key, seen + {c}, counts)
    ensures Counted(s, c) ==>
      var side := key(s.cities[c].owner.value);
      CountsMatch(s, key, seen + {c}, counts[side := (if side in counts then counts[side] else 0) + 1])
  {
    forall k ensures |CitiesWithin(s, key, seen + {c}, k)| == |CitiesWithin(s, key, seen, k)|
      + if Counted(s, c) && key(s.cities[c].owner.value) == k then 1 else 0
    {
      CountOneMore(s, key, seen, c, k);
    }
  }

  lemma CountOneMore<K(!new)>(s: Snapshot, key: PlayerId -> K, seen: set<CityId>, c: CityId, k: K)
    requires c in s.cities && c !in seen
    ensures |CitiesWithin(s, key, seen + {c}, k)| == |CitiesWithin(s, key, seen, k)|
      + if Counted(s, c) && key(s.cities[c].owner.value) == k then 1 else 0
  {
    if Counted(s, c) && key(s.cities[c].owner.value) == k {
      assert CitiesWithin(s, key, seen + {c}, k) == CitiesWithin(s, key, seen, k) + {c};
    } else {
      assert CitiesWithin(s, key, seen + {c}, k) == CitiesWithin(s, key, seen, k);
    }
  }

  lemma CountsComplete<K(!new)>(s: Snapshot, key: PlayerId -> K, counts: map<K, int>)
    requires CountsMatch(s, key, s.cities.Keys, counts)
    ensures counts.Keys == Sides(s, key)
    ensures forall k :: k in counts ==> counts[k] == HeldBy(s, key)(k)
  {
    forall k ensures CitiesWithin(s, key, s.cities.Keys, k) == CitiesOf(s, key, k) {
    }
    forall k ensures k in Sides(s, key) <==> |CitiesOf(s, key, k)| > 0 {
      SideHasCity(s, key, k);
    }
  }

  lemma SideHasCity<K(!new)>(s: Snapshot, key: PlayerId -> K, k: K)
    ensures k in Sides(s, key) <==> |CitiesOf(s, key, k)| > 0
  {
    if k in Sides(s, key) {
      var c :| c in s.cities && Counted(s, c) && key(s.cities[c].owner.value) == k;
      assert c in CitiesOf(s, key, k);
    }
    if |CitiesOf(s, key, k)| > 0 {
      var c := Pick(CitiesOf(s, key, k));
      assert Counted(s, c);
    }
  }

  /** The largest count and, when one side alone has it, that side. */
  method FindLeader<K(!new,==)>(s: Snapshot, key: PlayerId -> K) returns (leader: Option<K>, held: int)
    ensures leader == LeaderOf(s, key) && held == MostHeld(s, key)
  {
    var counts := CountCities(s, key);
    held := MaxCount(counts, HeldBy(s, key));
    NoLeaderOfNothing(s, key);
    if counts == map[] {
      return None, 0;
    }
    var leaders := set k | k in counts && counts[k] == held;
    LeadersFound(s, key, leaders, held);
    if |leaders| == 1 {
      var k :| k in leaders;
      LeaderIs(s, key, k);
      return Some(k), held;
    }
    leader := None;
  }

  lemma NoLeaderOfNothing<K(!new)>(s: Snapshot, key: PlayerId -> K)
    ensures Sides(s, key) == {} ==> LeaderOf(s, key) == None
  {
  }

  lemma LeadersFound<K(!new)>(s: Snapshot, key: PlayerId -> K, leaders: set<K>, held: int)
    requires leaders == set k | k in Sides(s, key) && HeldBy(s, key)(k) == held
    requires held == MostHeld(s, key) && Sides(s, key) != {}
    ensures |leaders| == 1 ==> forall k :: k in leaders ==> SoleLeader(s, key, k)
    ensures |leaders| != 1 ==> LeaderOf(s, key) == None
  {
    if |leaders| == 1 {
      forall k | k in leaders ensures SoleLeader(s, key, k) { OnlyLeader(s, key, leaders, held, k); }
    }
    forall k | SoleLeader(s, key, k) ensures |leaders| == 1 {
      LeaderIs(s, key, k);
      assert leaders == {k};
    }
  }

  lemma OnlyLeader<K(!new)>(s: Snapshot, key: PlayerId -> K, leaders: set<K>, held: int, k: K)
    requires leaders == set j | j in Sides(s, key) && HeldBy(s, key)(j) == held
    requires held == MostHeld(s, key) && |leaders| == 1 && k in leaders
    ensures SoleLeader(s, key, k)
  {
    assert |leaders - {k}| == 0;
    forall j | j in Sides(s, key) && j != k ensures HeldBy(s, key)(j) < HeldBy(s, key)(k) {
      assert j !in leaders - {k};
      assert HeldBy(s, key)(j) <= MaxOver(HeldBy(s, key), Sides(s, key));
    }
  }

  method MaxCount<K(!new,==)>(counts: map<K, int>, ghost weight: K -> int) returns (most: int)
    requires forall k :: k in counts ==> counts[k] == weight(k) >= 0
    ensures most == MaxOver(weight, counts.Keys)
  {
    most := 0;
    var todo := counts.Keys;
    while todo != {}
      invariant todo <= counts.Keys
      invariant todo == counts.Keys ==> most == 0
      invariant forall k :: k in counts && k !in todo ==> weight(k) <= most
      invariant todo != counts.Keys ==> exists k :: k in counts && k !in todo && weight(k) == most
    {
      var k :| k in todo;
      if todo == counts.Keys || counts[k] > most {
        most := counts[k];
      }
      todo := todo - {k};
    }
  }
}
