/** Rebuilding the alliances from the players' alliance ids alone. */
module AllianceDerivation {
  import opened Collections
  import opened Ordering
  import opened Naming
  import opened Domain
  import opened ResourceSteps
  import opened RecordTypes
  import opened AllianceRules
  import opened RunInvariant

  ghost function AllianceIds(players: map<PlayerId, Player>): set<string> {
    set p | p in players && players[p].allianceId.Some? :: players[p].allianceId.value
  }

  ghost function MembersOf(players: map<PlayerId, Player>, id: string): set<PlayerId> {
    set p | p in players && players[p].allianceId == Some(id)
  }

  function MemberSince(tick: nat): PlayerId -> Option<Member> {
    (p: PlayerId) => Some(Member(p, tick))
  }

  /** One alliance as it is rebuilt: named by its id, led by its first member in id order. */
  ghost predicate Rebuilt(players: map<PlayerId, Player>, tick: nat, id: string, a: League) {
    && a.id == id && a.name == id && a.formedTick == tick
    && a.members == FilterMap(MemberSince(tick), Listing(MembersOf(players, id)))
    && Listing(MembersOf(players, id)) != [] && a.leader == Listing(MembersOf(players, id))[0]
  }

  ghost predicate AllRebuilt(players: map<PlayerId, Player>, tick: nat, ids: seq<string>, leagues: seq<League>) {
    |leagues| == |ids| && forall i :: 0 <= i < |ids| ==> Rebuilt(players, tick, ids[i], leagues[i])
  }

  // ---- the loop ----

  method GroupByAlliance(players: map<PlayerId, Player>) returns (groups: map<string, seq<PlayerId>>)
    ensures groups.Keys == AllianceIds(players)
    ensures forall id :: id in groups ==> Distinct(groups[id]) && Elements(groups[id]) == MembersOf(players, id) && groups[id] != []
  {
    groups := map[];
    var todo := players.Keys;
    ghost var seen: set<PlayerId> := {};
    while todo != {}
      invariant todo <= players.Keys && seen !! todo && players.Keys <= seen + todo && seen <= players.Keys
      invariant forall id :: id in groups <==> exists p :: p in seen && players[p].allianceId == Some(id)
      invariant forall id :: id in groups ==> Distinct(groups[id])
      invariant forall id, p :: id in groups ==> (p in groups[id] <==> p in seen && players[p].allianceId == Some(id))
    {
      var p :| p in todo;
      if players[p].allianceId.Some? {
        var id := players[p].allianceId.value;
        var earlier := if id in groups then groups[id] else [];
        groups := groups[id := earlier + [p]];
      }
      todo := todo - {p};
      seen := seen + {p};
    }
    assert seen == players.Keys;
    forall id | id in groups ensures Elements(groups[id]) == MembersOf(players, id) && groups[id] != [] {
      var p :| p in seen && players[p].allianceId == Some(id);
      assert p in groups[id];
    }
  }

  method DeriveAlliancesFromState(players: map<PlayerId, Player>, tick: nat) returns (leagues: seq<League>)
    ensures AllRebuilt(players, tick, Listing(AllianceIds(players)), leagues)
  {
    var groups := GroupByAlliance(players);
    var listed := ListIds(groups.Keys);
    var ids := SortIds(listed);
    leagues := [];
    var i := 0;
    while i < |ids|
      invariant 0 <= i <= |ids|
      invariant AllRebuilt(players, tick, ids[..i], leagues)
    {
      assert ids[i] in Elements(ids);
      var members := SortIds(groups[ids[i]]);
      assert members != [] by { assert groups[ids[i]][0] in Elements(members); }
      var stored := StampMembers(members, tick);
      leagues := leagues + [League(ids[i], ids[i], members[0], tick, stored)];
      i := i + 1;
    }
    assert ids[..i] == ids;
  }

  method StampMembers(ids: seq<PlayerId>, tick: nat) returns (members: seq<Member>)
    ensures members == FilterMap(MemberSince(tick), ids)
  {
    members := [];
    var i := 0;
    while i < |ids|
      invariant 0 <= i <= |ids|
      invariant members == FilterMap(MemberSince(tick), ids[..i])
    {
      FilterMapStep(MemberSince(tick), ids, i);
      members := members + [Member(ids[i], tick)];
      i := i + 1;
    }
    assert ids[..i] == ids;
  }

  // ---- the rebuilt alliances are the stored ones, up to names and ticks ----

  ghost function MemberSet(a: League): set<PlayerId> {
    set k | 0 <= k < |a.members| :: a.members[k].playerId
  }

  lemma RebuiltMembers(players: map<PlayerId, Player>, tick: nat, id: string, a: League)
    requires Rebuilt(players, tick, id, a)
    ensures MemberSet(a) == MembersOf(players, id)
  {
    var ids := Listing(MembersOf(players, id));
    ListingSorted(MembersOf(players, id));
    FilterMapTotal(MemberSince(tick), ids);
    forall k | 0 <= k < |ids| ensures a.members[k].playerId == ids[k] {
      assert MemberSince(tick)(ids[k]) == Some(a.members[k]);
    }
    forall p ensures p in MemberSet(a) <==> p in Elements(ids) {
      if p in Elements(ids) {
        var k :| 0 <= k < |ids| && ids[k] == p;
        assert a.members[k].playerId == p;
      }
      if p in MemberSet(a) {
        var k :| 0 <= k < |a.members| && a.members[k].playerId == p;
        assert ids[k] == p;
      }
    }
  }

  ghost predicate HasTwin(a: League, others: seq<League>) {
    exists j :: 0 <= j < |others| && others[j].id == a.id && MemberSet(others[j]) == MemberSet(a)
  }

  /** Under the index, the stored alliances and the rebuilt ones have the same ids and the same members. */
  lemma RebuildingAgrees(players: map<PlayerId, Player>, leagues: seq<League>, tick: nat, rebuilt: seq<League>)
    requires AllianceIndex(players, leagues)
    requires AllRebuilt(players, tick, Listing(AllianceIds(players)), rebuilt)
    ensures forall i :: 0 <= i < |leagues| ==> HasTwin(leagues[i], rebuilt)
    ensures forall j :: 0 <= j < |rebuilt| ==> HasTwin(rebuilt[j], leagues)
  {
    forall i | 0 <= i < |leagues| ensures HasTwin(leagues[i], rebuilt) {
      StoredIsRebuilt(players, leagues, tick, rebuilt, i);
    }
    forall j | 0 <= j < |rebuilt| ensures HasTwin(rebuilt[j], leagues) {
      RebuiltIsStored(players, leagues, tick, rebuilt, j);
    }
  }

  lemma StoredIsRebuilt(players: map<PlayerId, Player>, leagues: seq<League>, tick: nat, rebuilt: seq<League>, i: nat)
    requires AllianceIndex(players, leagues) && i < |leagues|
    requires AllRebuilt(players, tick, Listing(AllianceIds(players)), rebuilt)
    ensures HasTwin(leagues[i], rebuilt)
  {
    var ids := Listing(AllianceIds(players));
    ListingSorted(AllianceIds(players));
    StoredMembers(players, leagues, i);
    assert leagues[i].id in Elements(ids);
    var j :| 0 <= j < |ids| && ids[j] == leagues[i].id;
    RebuiltMembers(players, tick, ids[j], rebuilt[j]);
  }

  lemma RebuiltIsStored(players: map<PlayerId, Player>, leagues: seq<League>, tick: nat, rebuilt: seq<League>, j: nat)
    requires AllianceIndex(players, leagues) && j < |rebuilt|
    requires AllRebuilt(players, tick, Listing(AllianceIds(players)), rebuilt)
    ensures HasTwin(rebuilt[j], leagues)
  {
    var ids := Listing(AllianceIds(players));
    ListingSorted(AllianceIds(players));
    RebuiltMembers(players, tick, ids[j], rebuilt[j]);
    assert ids[j] in Elements(ids);
    var p :| p in players && players[p].allianceId == Some(ids[j]);
    assert InLeague(leagues, ids[j], p);
    var i :| 0 <= i < |leagues| && leagues[i].id == ids[j] && Lists(leagues[i], p);
    StoredMembers(players, leagues, i);
  }

  lemma StoredMembers(players: map<PlayerId, Player>, leagues: seq<League>, i: nat)
    requires AllianceIndex(players, leagues) && i < |leagues|
    ensures MemberSet(leagues[i]) == MembersOf(players, leagues[i].id)
    ensures leagues[i].id in AllianceIds(players)
  {
    var a := leagues[i];
    assert LeagueOk(a, players.Keys);
    forall p ensures p in MemberSet(a) <==> p in MembersOf(players, a.id) {
      LeagueByPosition(leagues, i, p);
      if p in players { assert players[p].allianceId == Some(a.id) <==> InLeague(leagues, a.id, p); }
    }
    assert a.leader in MembersOf(players, a.id);
  }

  // ---- names ----

  /** No player goes by a name the alliance counter can produce. */
  ghost predicate PlainNames(players: set<PlayerId>) {
    forall n: nat :: Numbered(ALLIANCE_PREFIX, n) !in players
  }

  lemma IndexKeepsNamesApart(players: map<PlayerId, Player>, leagues: seq<League>)
    requires AllianceIndex(players, leagues) && PlainNames(players.Keys)
    ensures NamesApart(players)
  {
    forall p | p in players && players[p].allianceId.Some?
      ensures players[p].allianceId.value != "" && players[p].allianceId.value !in players
    {
      var id := players[p].allianceId.value;
      assert InLeague(leagues, id, p);
      var i :| 0 <= i < |leagues| && leagues[i].id == id && Lists(leagues[i], p);
      assert LeagueOk(leagues[i], players.Keys);
      var n: nat :| id == Numbered(ALLIANCE_PREFIX, n);
    }
  }
}
