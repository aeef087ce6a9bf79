/** Step facts for the loops of the movement phase. */
module MovementFacts {
  import opened Collections
  import opened Domain
  import opened Casualties
  import opened Phases

  /** A pass that keeps ids keeps them unique. */
  lemma {:induction false} PassKeepsIds(f: Army -> Option<Army>, armies: seq<Army>)
    requires UniqueIds(armies)
    requires forall a :: a in armies && f(a).Some? ==> f(a).value.id == a.id
    ensures UniqueIds(FilterMap(f, armies))
    ensures Ids(FilterMap(f, armies)) <= Ids(armies)
  {
    if armies != [] {
      var init, last := armies[..|armies| - 1], armies[|armies| - 1];
      PassKeepsIds(f, init);
      assert last in armies;
      IdsOfInit(armies);
      var kept := FilterMap(f, init);
      forall k | 0 <= k < |kept| ensures kept[k].id != last.id {
        assert kept[k].id in Ids(kept);
      }
      if f(last).Some? {
        assert Ids(kept + [f(last).value]) == Ids(kept) + {last.id};
      }
    }
  }

  lemma IdsOfInit(armies: seq<Army>)
    requires UniqueIds(armies) && armies != []
    ensures Ids(armies) == Ids(armies[..|armies| - 1]) + {armies[|armies| - 1].id}
    ensures armies[|armies| - 1].id !in Ids(armies[..|armies| - 1])
  {
    var init, last := armies[..|armies| - 1], armies[|armies| - 1];
    assert armies == init + [last];
  }

  lemma TransitKeepsIds(armies: seq<Army>)
    requires UniqueIds(armies)
    ensures UniqueIds(FilterMap(STEP_TRANSIT, armies))
  {
    PassKeepsIds(STEP_TRANSIT, armies);
  }

  lemma {:induction false} MoveKeepsId(a: Army, orders: seq<MovementOrder>, m: MapDefinition)
    ensures MoveBy(a, orders, m).id == a.id && MoveBy(a, orders, m).owner == a.owner && MoveBy(a, orders, m).troops == a.troops
  {
    if orders != [] { MoveKeepsId(a, orders[..|orders| - 1], m); }
  }

  lemma DepartKeepsIds(armies: seq<Army>, orders: seq<MovementOrder>, m: MapDefinition)
    requires UniqueIds(armies)
    ensures UniqueIds(FilterMap(Departing(orders, m), armies))
  {
    forall a | a in armies ensures Departing(orders, m)(a).value.id == a.id { MoveKeepsId(a, orders, m); }
    PassKeepsIds(Departing(orders, m), armies);
  }

  lemma NothingDeparts(armies: seq<Army>, m: MapDefinition)
    ensures FilterMap(Departing([], m), armies) == armies
  {
    FilterMapTotal(Departing([], m), armies);
  }

  /** One more order moves at most the army it names. */
  lemma DepartStep(armies: seq<Army>, orders: seq<MovementOrder>, i: nat, m: MapDefinition)
    requires UniqueIds(armies) && i < |orders|
    ensures var now, next := FilterMap(Departing(orders[..i], m), armies), FilterMap(Departing(orders[..i + 1], m), armies);
      && |now| == |next| == |armies|
      && (forall k :: 0 <= k < |armies| ==> now[k].id == armies[k].id && next[k] == MoveOne(now[k], orders[i], m))
  {
    FilterMapTotal(Departing(orders[..i], m), armies);
    FilterMapTotal(Departing(orders[..i + 1], m), armies);
    forall k | 0 <= k < |armies|
      ensures MoveBy(armies[k], orders[..i + 1], m) == MoveOne(MoveBy(armies[k], orders[..i], m), orders[i], m)
      ensures MoveBy(armies[k], orders[..i], m).id == armies[k].id
    {
      assert orders[..i + 1][..i] == orders[..i];
      MoveKeepsId(armies[k], orders[..i], m);
    }
  }

  lemma DepartNobody(armies: seq<Army>, orders: seq<MovementOrder>, i: nat, m: MapDefinition)
    requires UniqueIds(armies) && i < |orders|
    requires forall k :: 0 <= k < |armies| ==> armies[k].id != orders[i].armyId
    ensures FilterMap(Departing(orders[..i + 1], m), armies) == FilterMap(Departing(orders[..i], m), armies)
  {
    DepartStep(armies, orders, i, m);
  }

  lemma DepartAt(armies: seq<Army>, orders: seq<MovementOrder>, i: nat, m: MapDefinition, k: nat)
    requires UniqueIds(armies) && i < |orders| && k < |armies| && armies[k].id == orders[i].armyId
    ensures var now := FilterMap(Departing(orders[..i], m), armies);
      |now| == |armies| && now[k].id == armies[k].id
      && FilterMap(Departing(orders[..i + 1], m), armies) == now[k := MoveOne(now[k], orders[i], m)]
  {
    DepartStep(armies, orders, i, m);
  }

  lemma TransitDone(before: seq<Army>, after: seq<Army>)
    requires |before| == |after| && forall k :: 0 <= k < |before| ==> STEP_TRANSIT(before[k]) == Some(after[k])
    ensures after == FilterMap(STEP_TRANSIT, before)
  {
    FilterMapTotal(STEP_TRANSIT, before);
  }
}
