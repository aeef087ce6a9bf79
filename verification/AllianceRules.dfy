/** Creating, joining and leaving alliances, and the index that membership and alliance ids form. */
module AllianceRules {
  import opened Collections
  import opened Ordering
  import opened Naming
  import opened Domain
  import opened RecordTypes

  datatype AllianceAction = Create(name: Option<string>) | Join(id: Option<string>) | Leave

  /** The players and alliances after an action, and the alliance it reports. */
  datatype AllianceChange = AllianceChange(players: map<PlayerId, Player>, leagues: seq<League>, reported: Option<League>)

  const ALLIANCE_PREFIX := "alliance-"

  const MEMBER_ID: Member -> Option<PlayerId> := (x: Member) => Some(x.playerId)
  const LEAGUE_ID: League -> Option<string> := (a: League) => Some(a.id)

  function MemberIds(a: League): seq<PlayerId> {
    FilterMap(MEMBER_ID, a.members)
  }

  function LeagueIds(leagues: seq<League>): seq<string> {
    FilterMap(LEAGUE_ID, leagues)
  }

  function OtherMember(p: PlayerId): Member -> bool {
    (x: Member) => x.playerId != p
  }

  function OtherLeague(id: string): League -> bool {
    (a: League) => a.id != id
  }

  const MEMBER_ORDER: (Member, Member) -> bool := (x: Member, y: Member) => StrLe(x.playerId, y.playerId)

  /** How an alliance is reported: members by id. */
  function Reported(a: League): League {
    a.(members := Sort(MEMBER_ORDER, a.members))
  }

  /** The first alliance under an id. */
  function FindLeague(leagues: seq<League>, id: string): Option<nat> {
    if leagues == [] then None
    else if leagues[0].id == id then Some(0)
    else match FindLeague(leagues[1..], id)
      case None => None
      case Some(i) => Some(i + 1)
  }

  lemma {:induction false} FindLeagueFinds(leagues: seq<League>, id: string)
    ensures match FindLeague(leagues, id)
      case Some(i) => i < |leagues| && leagues[i].id == id && forall k :: 0 <= k < i ==> leagues[k].id != id
      case None => forall k :: 0 <= k < |leagues| ==> leagues[k].id != id
  {
    if leagues != [] && leagues[0].id != id {
      FindLeagueFinds(leagues[1..], id);
      assert forall k :: 1 <= k < |leagues| ==> leagues[k] == leagues[1..][k - 1];
    }
  }

  ghost function NextAllianceId(leagues: seq<League>): string {
    Numbered(ALLIANCE_PREFIX, FirstFree(ALLIANCE_PREFIX, Elements(LeagueIds(leagues)), 1))
  }

  function WithAlliance(players: map<PlayerId, Player>, p: PlayerId, id: Option<string>): map<PlayerId, Player>
    requires p in players
  {
    players[p := players[p].(allianceId := id)]
  }

  ghost function LeastMember(a: League): PlayerId
    requires a.members != []
  {
    StringOrderIsTotal();
    SortSorts(STRING_ORDER, MemberIds(a));
    FilterMapTotal(MEMBER_ID, a.members);
    Sort(STRING_ORDER, MemberIds(a))[0]
  }

  /** The alliance once p has left it; leadership passes to the least remaining id. */
  ghost function Without(a: League, p: PlayerId): League {
    var rest := a.(members := Filter(OtherMember(p), a.members));
    if rest.members != [] && a.leader == p then rest.(leader := LeastMember(rest)) else rest
  }

  ghost function AllianceOutcome(players: map<PlayerId, Player>, leagues: seq<League>, tick: nat, p: PlayerId, action: AllianceAction)
    : Result<AllianceChange, CommandError>
  {
    if p !in players then Err(UnknownPlayer) else
      match action
      case Create(name) =>
        if players[p].allianceId.Some? then Err(PlayerAlreadyInAlliance)
        else if name == None then Err(AllianceNameRequired)
        else
          var a := League(NextAllianceId(leagues), name.value, p, tick, [Member(p, tick)]);
          Ok(AllianceChange(WithAlliance(players, p, Some(a.id)), leagues + [a], Some(Reported(a))))
      case Join(id) =>
        if players[p].allianceId.Some? then Err(PlayerAlreadyInAlliance)
        else if id == None then Err(AllianceIdRequired)
        else (
          FindLeagueFinds(leagues, id.value);
          match FindLeague(leagues, id.value)
          case None => Err(AllianceNotFound)
          case Some(i) =>
            var a := leagues[i].(members := leagues[i].members + [Member(p, tick)]);
            Ok(AllianceChange(WithAlliance(players, p, Some(a.id)), leagues[i := a], Some(Reported(a)))))
      case Leave =>
        if players[p].allianceId == None then Err(PlayerNotInAlliance)
        else (
          FindLeagueFinds(leagues, players[p].allianceId.value);
          match FindLeague(leagues, players[p].allianceId.value)
          case None => Err(AllianceNotFound)
          case Some(i) =>
            var a := Without(leagues[i], p);
            if a.members == [] then
              Ok(AllianceChange(WithAlliance(players, p, None), Filter(OtherLeague(a.id), leagues), None))
            else Ok(AllianceChange(WithAlliance(players, p, None), leagues[i := a], Some(Reported(a)))))
  }

  // ---- the index invariant ----

  ghost predicate Lists(a: League, p: PlayerId) {
    exists k :: 0 <= k < |a.members| && a.members[k].playerId == p
  }

  ghost predicate LeagueOk(a: League, players: set<PlayerId>) {
    && a.members != []
    && Lists(a, a.leader)
    && (forall i, j :: 0 <= i < j < |a.members| ==> a.members[i].playerId != a.members[j].playerId)
    && (forall k :: 0 <= k < |a.members| ==> a.members[k].playerId in players)
    && exists n: nat :: a.id == Numbered(ALLIANCE_PREFIX, n)
  }

  ghost predicate InLeague(leagues: seq<League>, id: string, p: PlayerId) {
    exists i :: 0 <= i < |leagues| && leagues[i].id == id && Lists(leagues[i], p)
  }

  /** Membership lists and alliance ids say the same thing, without duplicates. */
  ghost predicate AllianceIndex(players: map<PlayerId, Player>, leagues: seq<League>) {
    && IdsDistinct(leagues)
    && (forall i :: 0 <= i < |leagues| ==> LeagueOk(leagues[i], players.Keys))
    && (forall p, id :: p in players ==> (players[p].allianceId == Some(id) <==> InLeague(leagues, id, p)))
  }

  /** A player's alliance id is A exactly when the player is listed in A, once, and in no other alliance. */
  lemma IndexIsFaithful(players: map<PlayerId, Player>, leagues: seq<League>, p: PlayerId, i: nat)
    requires AllianceIndex(players, leagues) && p in players && i < |leagues|
    ensures players[p].allianceId == Some(leagues[i].id) <==>
      |Filter(ListedAs(p), leagues[i].members)| == 1
      && forall j :: 0 <= j < |leagues| && j != i ==> Filter(ListedAs(p), leagues[j].members) == []
  {
    forall j | 0 <= j < |leagues|
      ensures |Filter(ListedAs(p), leagues[j].members)| == if Lists(leagues[j], p) then 1 else 0
    {
      assert LeagueOk(leagues[j], players.Keys);
      ListedCount(leagues[j].members, p);
    }
    if players[p].allianceId == Some(leagues[i].id) {
      assert InLeague(leagues, leagues[i].id, p);
      forall j | 0 <= j < |leagues| && j != i ensures !Lists(leagues[j], p) {
        if Lists(leagues[j], p) { assert InLeague(leagues, leagues[j].id, p); }
      }
    }
    if Lists(leagues[i], p) { assert InLeague(leagues, leagues[i].id, p); }
  }

  function ListedAs(p: PlayerId): Member -> bool {
    (x: Member) => x.playerId == p
  }

  lemma {:induction false} ListedCount(members: seq<Member>, p: PlayerId)
    requires forall i, j :: 0 <= i < j < |members| ==> members[i].playerId != members[j].playerId
    ensures |Filter(ListedAs(p), members)| ==
      if exists k :: 0 <= k < |members| && members[k].playerId == p then 1 else 0
  {
    if members != [] {
      var init := members[..|members| - 1];
      ListedCount(init, p);
      assert forall k :: 0 <= k < |init| ==> init[k] == members[k];
    }
  }

  // ---- every action keeps the index ----

  lemma LeagueIdsListed(leagues: seq<League>, id: string)
    ensures id in Elements(LeagueIds(leagues)) <==> exists i :: 0 <= i < |leagues| && leagues[i].id == id
  {
    FilterMapTotal(LEAGUE_ID, leagues);
    forall i | 0 <= i < |leagues| ensures leagues[i].id in LeagueIds(leagues) {
      assert LEAGUE_ID(leagues[i]) == Some(LeagueIds(leagues)[i]);
    }
    if id in Elements(LeagueIds(leagues)) {
      var i :| 0 <= i < |leagues| && LeagueIds(leagues)[i] == id;
      assert LEAGUE_ID(leagues[i]) == Some(id);
    }
  }

  lemma CreateKeepsIndex(players: map<PlayerId, Player>, leagues: seq<League>, p: PlayerId, a: League)
    requires AllianceIndex(players, leagues) && p in players && players[p].allianceId == None
    requires a.id == NextAllianceId(leagues) && a.leader == p && |a.members| == 1 && a.members[0].playerId == p
    ensures AllianceIndex(WithAlliance(players, p, Some(a.id)), leagues + [a])
  {
    LeagueIdsListed(leagues, a.id);
    assert a.members[0].playerId == p;
    assert LeagueOk(a, players.Keys);
    var after := WithAlliance(players, p, Some(a.id));
    forall q, id | q in after ensures after[q].allianceId == Some(id) <==> InLeague(leagues + [a], id, q) {
      InLeagueAppend(leagues, a, id, q);
      assert players[q].allianceId == Some(id) <==> InLeague(leagues, id, q);
    }
  }

  lemma InLeagueAppend(leagues: seq<League>, a: League, id: string, q: PlayerId)
    ensures InLeague(leagues + [a], id, q) <==> InLeague(leagues, id, q) || (a.id == id && Lists(a, q))
  {
    if InLeague(leagues, id, q) {
      var i :| 0 <= i < |leagues| && leagues[i].id == id && Lists(leagues[i], q);
      assert (leagues + [a])[i] == leagues[i];
    }
    assert (leagues + [a])[|leagues|] == a;
  }

  lemma InLeagueUpdate(leagues: seq<League>, i: nat, a: League, id: string, q: PlayerId)
    requires i < |leagues| && a.id == leagues[i].id
    requires forall j, k :: 0 <= j < k < |leagues| ==> leagues[j].id != leagues[k].id
    ensures InLeague(leagues[i := a], id, q) <==> if id == a.id then Lists(a, q) else InLeague(leagues, id, q)
  {
    if InLeague(leagues, id, q) && id != a.id {
      var j :| 0 <= j < |leagues| && leagues[j].id == id && Lists(leagues[j], q);
      assert leagues[i := a][j] == leagues[j];
    }
    assert leagues[i := a][i] == a;
    if InLeague(leagues[i := a], id, q) {
      var j :| 0 <= j < |leagues| && leagues[i := a][j].id == id && Lists(leagues[i := a][j], q);
      if j != i { assert leagues[i := a][j] == leagues[j]; }
    }
  }

  lemma UpdateKeepsIndex(players: map<PlayerId, Player>, leagues: seq<League>, p: PlayerId, i: nat, a: League, id: Option<string>)
    requires AllianceIndex(players, leagues) && p in players && i < |leagues| && a.id == leagues[i].id
    requires LeagueOk(a, players.Keys)
    requires forall q :: q in players && q != p ==> (Lists(a, q) <==> Lists(leagues[i], q))
    requires Lists(a, p) <==> id == Some(a.id)
    requires id.Some? ==> id.value == a.id && players[p].allianceId == None
    requires id == None ==> players[p].allianceId == Some(a.id)
    ensures AllianceIndex(WithAlliance(players, p, id), leagues[i := a])
  {
    var after := WithAlliance(players, p, id);
    forall q, x | q in after ensures after[q].allianceId == Some(x) <==> InLeague(leagues[i := a], x, q) {
      InLeagueUpdate(leagues, i, a, x, q);
      InLeagueUpdate(leagues, i, leagues[i], x, q);
      assert leagues[i := leagues[i]] == leagues;
      assert players[q].allianceId == Some(x) <==> InLeague(leagues, x, q);
    }
  }

  lemma JoinedLeague(a: League, p: PlayerId, tick: nat, players: set<PlayerId>)
    requires LeagueOk(a, players) && p in players && !Lists(a, p)
    ensures var b := a.(members := a.members + [Member(p, tick)]);
      LeagueOk(b, players) && forall q :: Lists(b, q) <==> Lists(a, q) || q == p
  {
    var b := a.(members := a.members + [Member(p, tick)]);
    forall q ensures Lists(b, q) <==> Lists(a, q) || q == p {
      if Lists(a, q) {
        var k :| 0 <= k < |a.members| && a.members[k].playerId == q;
        assert b.members[k] == a.members[k];
      }
      assert b.members[|a.members|].playerId == p;
    }
  }

  lemma {:induction false} FilterKeepsDistinct(keep: Member -> bool, members: seq<Member>)
    requires forall i, j :: 0 <= i < j < |members| ==> members[i].playerId != members[j].playerId
    ensures var kept := Filter(keep, members);
      forall i, j :: 0 <= i < j < |kept| ==> kept[i].playerId != kept[j].playerId
  {
    if members != [] {
      var init := members[..|members| - 1];
      FilterKeepsDistinct(keep, init);
      var kept := Filter(keep, init);
      forall i | 0 <= i < |kept| ensures kept[i].playerId != members[|members| - 1].playerId {
        FilterMember(keep, init, kept[i]);
        var k :| 0 <= k < |init| && init[k] == kept[i];
        assert members[k] == init[k];
      }
    }
  }

  lemma LeftLists(a: League, p: PlayerId, q: PlayerId)
    ensures Lists(a.(members := Filter(OtherMember(p), a.members)), q) <==> Lists(a, q) && q != p
  {
    var kept := Filter(OtherMember(p), a.members);
    if Lists(a, q) && q != p {
      var k :| 0 <= k < |a.members| && a.members[k].playerId == q;
      FilterMember(OtherMember(p), a.members, a.members[k]);
      var j :| 0 <= j < |kept| && kept[j] == a.members[k];
    }
    if Lists(a.(members := kept), q) {
      var j :| 0 <= j < |kept| && kept[j].playerId == q;
      FilterMember(OtherMember(p), a.members, kept[j]);
      var k :| 0 <= k < |a.members| && a.members[k] == kept[j];
    }
  }

  lemma LeastMemberListed(a: League)
    requires a.members != []
    ensures Lists(a, LeastMember(a))
    ensures forall q :: Lists(a, q) ==> StrLe(LeastMember(a), q)
  {
    StringOrderIsTotal();
    SortSorts(STRING_ORDER, MemberIds(a));
    FilterMapTotal(MEMBER_ID, a.members);
    var sorted := Sort(STRING_ORDER, MemberIds(a));
    assert sorted[0] in MemberIds(a);
    var k :| 0 <= k < |a.members| && MemberIds(a)[k] == sorted[0];
    assert MEMBER_ID(a.members[k]) == Some(MemberIds(a)[k]);
    forall q | Lists(a, q) ensures StrLe(sorted[0], q) {
      var j :| 0 <= j < |a.members| && a.members[j].playerId == q;
      assert MEMBER_ID(a.members[j]) == Some(MemberIds(a)[j]);
      assert q in sorted;
      FirstIsLeast(STRING_ORDER, sorted, q);
      assert STRING_ORDER(sorted[0], q);
    }
  }

  lemma LeftLeague(a: League, p: PlayerId, players: set<PlayerId>)
    requires LeagueOk(a, players)
    ensures var b := Without(a, p);
      && (forall q :: Lists(b, q) <==> Lists(a, q) && q != p)
      && (b.members != [] ==> LeagueOk(b, players))
  {
    var rest := a.(members := Filter(OtherMember(p), a.members));
    FilterKeepsDistinct(OtherMember(p), a.members);
    forall q ensures Lists(rest, q) <==> Lists(a, q) && q != p { LeftLists(a, p, q); }
    forall k | 0 <= k < |rest.members| ensures rest.members[k].playerId in players {
      FilterMember(OtherMember(p), a.members, rest.members[k]);
      var j :| 0 <= j < |a.members| && a.members[j] == rest.members[k];
    }
    if rest.members != [] { LeastMemberListed(rest); }
    forall q ensures Lists(Without(a, p), q) <==> Lists(rest, q) { }
  }

  lemma {:induction false} OthersRemain(leagues: seq<League>, i: nat)
    requires i < |leagues| && forall j, k :: 0 <= j < k < |leagues| ==> leagues[j].id != leagues[k].id
    ensures Filter(OtherLeague(leagues[i].id), leagues) == leagues[..i] + leagues[i + 1..]
  {
    var id := leagues[i].id;
    var before, after := leagues[..i], leagues[i + 1..];
    assert leagues == before + [leagues[i]] + after;
    FilterConcat(OtherLeague(id), before + [leagues[i]], after);
    FilterConcat(OtherLeague(id), before, [leagues[i]]);
    forall a | a in before ensures OtherLeague(id)(a) { }
    forall a | a in after ensures OtherLeague(id)(a) { }
    FilterAll(OtherLeague(id), before);
    FilterAll(OtherLeague(id), after);
    assert Filter(OtherLeague(id), [leagues[i]]) == [];
  }

  ghost predicate IdsDistinct(leagues: seq<League>) {
    forall i, j :: 0 <= i < j < |leagues| ==> leagues[i].id != leagues[j].id
  }

  lemma LeagueRemoved(leagues: seq<League>, i: nat, id: string, q: PlayerId)
    requires IdsDistinct(leagues) && i < |leagues|
    ensures InLeague(leagues[..i] + leagues[i + 1..], id, q) <==> InLeague(leagues, id, q) && id != leagues[i].id
  {
    var rest := leagues[..i] + leagues[i + 1..];
    if InLeague(leagues, id, q) && id != leagues[i].id {
      var k :| 0 <= k < |leagues| && leagues[k].id == id && Lists(leagues[k], q);
      assert rest[if k < i then k else k - 1] == leagues[k];
    }
    if InLeague(rest, id, q) {
      var k :| 0 <= k < |rest| && rest[k].id == id && Lists(rest[k], q);
      assert leagues[if k < i then k else k + 1] == rest[k];
    }
  }

  lemma LeagueByPosition(leagues: seq<League>, i: nat, q: PlayerId)
    requires IdsDistinct(leagues) && i < |leagues|
    ensures InLeague(leagues, leagues[i].id, q) <==> Lists(leagues[i], q)
  {
  }

  lemma DissolveKeepsIndex(players: map<PlayerId, Player>, leagues: seq<League>, p: PlayerId, i: nat)
    requires AllianceIndex(players, leagues) && p in players && i < |leagues|
    requires players[p].allianceId == Some(leagues[i].id)
    requires forall q :: Lists(leagues[i], q) ==> q == p
    ensures AllianceIndex(WithAlliance(players, p, None), leagues[..i] + leagues[i + 1..])
  {
    var after, rest := WithAlliance(players, p, None), leagues[..i] + leagues[i + 1..];
    assert IdsDistinct(leagues);
    forall q, id | q in after ensures after[q].allianceId == Some(id) <==> InLeague(rest, id, q) {
      LeagueRemoved(leagues, i, id, q);
      LeagueByPosition(leagues, i, q);
      assert players[q].allianceId == Some(id) <==> InLeague(leagues, id, q);
    }
    LeaguesRest(leagues, i, players.Keys);
  }

  lemma LeaguesRest(leagues: seq<League>, i: nat, players: set<PlayerId>)
    requires IdsDistinct(leagues) && i < |leagues| && forall k :: 0 <= k < |leagues| ==> LeagueOk(leagues[k], players)
    ensures var rest := leagues[..i] + leagues[i + 1..];
      IdsDistinct(rest) && forall k :: 0 <= k < |rest| ==> LeagueOk(rest[k], players)
  {
    var rest := leagues[..i] + leagues[i + 1..];
    assert forall k :: 0 <= k < |rest| ==> rest[k] == if k < i then leagues[k] else leagues[k + 1];
  }

  /** Whatever action succeeds, the index stays faithful. */
  lemma ActionKeepsIndex(players: map<PlayerId, Player>, leagues: seq<League>, tick: nat, p: PlayerId, action: AllianceAction)
    requires AllianceIndex(players, leagues)
    ensures match AllianceOutcome(players, leagues, tick, p, action)
      case Ok(change) => AllianceIndex(change.players, change.leagues) && change.players.Keys == players.Keys
      case Err(_) => true
  {
    var outcome := AllianceOutcome(players, leagues, tick, p, action);
    if outcome.Ok? {
      match action
      case Create(name) =>
        CreateKeepsIndex(players, leagues, p, League(NextAllianceId(leagues), name.value, p, tick, [Member(p, tick)]));
      case Join(id) =>
        JoinKeepsIndex(players, leagues, tick, p, id.value);
      case Leave =>
        LeaveKeepsIndex(players, leagues, tick, p);
    }
  }

  lemma JoinKeepsIndex(players: map<PlayerId, Player>, leagues: seq<League>, tick: nat, p: PlayerId, id: string)
    requires AllianceIndex(players, leagues) && p in players && players[p].allianceId == None && FindLeague(leagues, id).Some?
    ensures var change := AllianceOutcome(players, leagues, tick, p, Join(Some(id))).value;
      AllianceIndex(change.players, change.leagues)
  {
    FindLeagueFinds(leagues, id);
    var i := FindLeague(leagues, id).value;
    assert players[p].allianceId == Some(id) <==> InLeague(leagues, id, p);
    JoinedLeague(leagues[i], p, tick, players.Keys);
    UpdateKeepsIndex(players, leagues, p, i, leagues[i].(members := leagues[i].members + [Member(p, tick)]), Some(id));
  }

  lemma LeaveKeepsIndex(players: map<PlayerId, Player>, leagues: seq<League>, tick: nat, p: PlayerId)
    requires AllianceIndex(players, leagues) && p in players && players[p].allianceId.Some?
    requires FindLeague(leagues, players[p].allianceId.value).Some?
    ensures var change := AllianceOutcome(players, leagues, tick, p, Leave).value;
      AllianceIndex(change.players, change.leagues)
  {
    var id := players[p].allianceId.value;
    FindLeagueFinds(leagues, id);
    var i := FindLeague(leagues, id).value;
    LeftLeague(leagues[i], p, players.Keys);
    var a := Without(leagues[i], p);
    if a.members == [] {
      forall q ensures !Lists(a, q) { }
      DissolveKeepsIndex(players, leagues, p, i);
      OthersRemain(leagues, i);
    } else {
      UpdateKeepsIndex(players, leagues, p, i, a, None);
    }
  }

  /** With the index in force, leaving never fails to find the alliance. */
  lemma LeaveAlwaysFinds(players: map<PlayerId, Player>, leagues: seq<League>, tick: nat, p: PlayerId)
    requires AllianceIndex(players, leagues) && p in players
    ensures AllianceOutcome(players, leagues, tick, p, Leave).Ok? <==> players[p].allianceId.Some?
  {
    if players[p].allianceId.Some? {
      assert InLeague(leagues, players[p].allianceId.value, p);
      FindLeagueFinds(leagues, players[p].allianceId.value);
    }
  }
}
