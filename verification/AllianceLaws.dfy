/** When an alliance action succeeds and what it makes of the alliance. */
module AllianceLaws {
  import opened Collections
  import opened Ordering
  import opened Naming
  import opened Domain
  import opened RecordTypes
  import opened AllianceRules

  predicate Unallied(players: map<PlayerId, Player>, p: PlayerId) {
    p in players && players[p].allianceId == None
  }

  /** The i-th alliance is the first under the id. */
  ghost predicate FirstUnder(leagues: seq<League>, i: nat, id: string) {
    i < |leagues| && leagues[i].id == id && forall k :: 0 <= k < i ==> leagues[k].id != id
  }

  lemma FoundFirst(leagues: seq<League>, i: nat, id: string)
    requires FirstUnder(leagues, i, id)
    ensures FindLeague(leagues, id) == Some(i)
  {
    FindLeagueFinds(leagues, id);
  }

  /** One player moves to an alliance or out of one; nobody else and nothing else about a player changes. */
  ghost predicate OnlyMoves(before: map<PlayerId, Player>, after: map<PlayerId, Player>, p: PlayerId, id: Option<string>) {
    && after.Keys == before.Keys && p in before
    && after[p] == Player(before[p].resources, before[p].citiesOwned, id, before[p].isEliminated)
    && forall q :: q in before && q != p ==> after[q] == before[q]
  }

  // ---- creating ----

  /** Creating succeeds if and only if a known player in no alliance gives a name. */
  lemma CreatingSucceedsIff(players: map<PlayerId, Player>, leagues: seq<League>, tick: nat, p: PlayerId, name: Option<string>)
    ensures AllianceOutcome(players, leagues, tick, p, Create(name)).Ok? <==> Unallied(players, p) && name.Some?
    ensures p in players && players[p].allianceId.Some? ==>
      AllianceOutcome(players, leagues, tick, p, Create(name)) == Err(PlayerAlreadyInAlliance)
    ensures Unallied(players, p) && name == None ==> AllianceOutcome(players, leagues, tick, p, Create(name)) == Err(AllianceNameRequired)
  {
  }

  /** The new alliance comes last, has its founder as leader and only member, and the first number that no alliance has. */
  lemma CreatingFounds(players: map<PlayerId, Player>, leagues: seq<League>, tick: nat, p: PlayerId, name: string) returns (n: nat)
    requires Unallied(players, p)
    ensures var made := AllianceOutcome(players, leagues, tick, p, Create(Some(name))).value;
      && made.leagues == leagues + [League(Numbered("alliance-", n), name, p, tick, [Member(p, tick)])]
      && OnlyMoves(players, made.players, p, Some(Numbered("alliance-", n)))
    ensures n >= 1 && (forall a :: a in leagues ==> a.id != Numbered("alliance-", n))
    ensures forall k :: 1 <= k < n ==> exists a :: a in leagues && a.id == Numbered("alliance-", k)
  {
    n := FirstFree(ALLIANCE_PREFIX, Elements(LeagueIds(leagues)), 1);
    forall id ensures id in Elements(LeagueIds(leagues)) <==> exists a :: a in leagues && a.id == id {
      LeagueIdsListed(leagues, id);
    }
  }

  // ---- joining ----

  /** Joining succeeds if and only if a known player in no alliance names the id of one there is. */
  lemma JoiningSucceedsIff(players: map<PlayerId, Player>, leagues: seq<League>, tick: nat, p: PlayerId, id: Option<string>)
    ensures AllianceOutcome(players, leagues, tick, p, Join(id)).Ok? <==>
      Unallied(players, p) && id.Some? && exists a :: a in leagues && a.id == id.value
    ensures p in players && players[p].allianceId.Some? ==>
      AllianceOutcome(players, leagues, tick, p, Join(id)) == Err(PlayerAlreadyInAlliance)
    ensures Unallied(players, p) && id == None ==> AllianceOutcome(players, leagues, tick, p, Join(id)) == Err(AllianceIdRequired)
    ensures Unallied(players, p) && id.Some? && (forall a :: a in leagues ==> a.id != id.value) ==>
      AllianceOutcome(players, leagues, tick, p, Join(id)) == Err(AllianceNotFound)
  {
    if id.Some? { FindLeagueFinds(leagues, id.value); }
  }

  /** The player becomes the last member of that alliance, joined now, and its leader stays. */
  lemma JoiningAdds(players: map<PlayerId, Player>, leagues: seq<League>, tick: nat, p: PlayerId, id: string, i: nat)
    requires Unallied(players, p) && FirstUnder(leagues, i, id)
    ensures AllianceOutcome(players, leagues, tick, p, Join(Some(id))).Ok?
    ensures var a := leagues[i];
      var made := AllianceOutcome(players, leagues, tick, p, Join(Some(id))).value;
      && made.leagues == leagues[i := League(id, a.name, a.leader, a.formedTick, a.members + [Member(p, tick)])]
      && OnlyMoves(players, made.players, p, Some(id))
  {
    FoundFirst(leagues, i, id);
  }

  // ---- leaving ----

  /** Leaving succeeds if and only if the player's alliance id is that of an alliance there is. */
  lemma LeavingSucceedsIff(players: map<PlayerId, Player>, leagues: seq<League>, tick: nat, p: PlayerId)
    ensures AllianceOutcome(players, leagues, tick, p, Leave).Ok? <==>
      p in players && players[p].allianceId.Some? && exists a :: a in leagues && a.id == players[p].allianceId.value
    ensures Unallied(players, p) ==> AllianceOutcome(players, leagues, tick, p, Leave) == Err(PlayerNotInAlliance)
  {
    if p in players && players[p].allianceId.Some? { FindLeagueFinds(leagues, players[p].allianceId.value); }
  }

  /**
   * The player leaves the first alliance under its id; the rest keep their leader, or if it was the leader who left, are led by
   * the least of their ids; an alliance left by its last member is gone.
   */
  lemma LeavingDrops(players: map<PlayerId, Player>, leagues: seq<League>, tick: nat, p: PlayerId, i: nat) returns (b: League)
    requires AllianceIndex(players, leagues) && p in players && i < |leagues| && players[p].allianceId == Some(leagues[i].id)
    ensures AllianceOutcome(players, leagues, tick, p, Leave).Ok?
    ensures var a := leagues[i];
      var made := AllianceOutcome(players, leagues, tick, p, Leave).value;
      && OnlyMoves(players, made.players, p, None)
      && b == League(a.id, a.name, b.leader, a.formedTick, b.members)
      && (forall x :: x in b.members <==> x in a.members && x.playerId != p)
      && (b.members == [] ==> made.leagues == leagues[..i] + leagues[i + 1..] && made.reported == None)
      && (b.members != [] ==> made.leagues == leagues[i := b])
      && (b.members != [] && a.leader != p ==> b.leader == a.leader)
      && (b.members != [] && a.leader == p ==>
            (exists x :: x in b.members && x.playerId == b.leader) && forall x :: x in b.members ==> StrLe(b.leader, x.playerId))
  {
    FoundFirst(leagues, i, leagues[i].id);
    b := RestLed(leagues[i], p);
    OthersRemain(leagues, i);
  }

  lemma RestLed(a: League, p: PlayerId) returns (b: League)
    ensures b == Without(a, p) && b == League(a.id, a.name, b.leader, a.formedTick, b.members)
    ensures forall x :: x in b.members <==> x in a.members && x.playerId != p
    ensures b.members != [] && a.leader != p ==> b.leader == a.leader
    ensures b.members != [] && a.leader == p ==>
      (exists x :: x in b.members && x.playerId == b.leader) && forall x :: x in b.members ==> StrLe(b.leader, x.playerId)
  {
    b := Without(a, p);
    forall x ensures x in b.members <==> x in a.members && x.playerId != p { FilterMember(OtherMember(p), a.members, x); }
    if b.members != [] && a.leader == p {
      LeastMemberListed(a.(members := b.members));
      LeadersListed(b);
    }
  }

  lemma LeadersListed(b: League)
    requires Lists(b, b.leader) && forall q :: Lists(b, q) ==> StrLe(b.leader, q)
    ensures (exists x :: x in b.members && x.playerId == b.leader) && forall x :: x in b.members ==> StrLe(b.leader, x.playerId)
  {
    forall x | x in b.members ensures StrLe(b.leader, x.playerId) {
      var k :| 0 <= k < |b.members| && b.members[k] == x;
      assert Lists(b, x.playerId);
    }
  }
}
