/** A record after which syncing twice is not syncing once: one alliance action passes a qualifying lead on. */
module LeadPasses {
  import opened Collections
  import opened Naming
  import opened Domain
  import opened Leadership
  import opened RecordTypes
  import opened AllianceRules
  import opened RecordSteps
  import opened RunInvariant
  import opened VictorySync

  /** Where one player owns every city, that player's side leads with all of them. */
  lemma SoleOwnerLeads(s: Snapshot, key: PlayerId -> string, p: PlayerId)
    requires p in s.players && s.cities.Keys != {} && forall c :: c in s.cities ==> s.cities[c].owner == Some(p)
    ensures LeaderOf(s, key) == Some(key(p)) && MostHeld(s, key) == |s.cities|
  {
    var c := Pick(s.cities.Keys);
    assert Counted(s, c);
    assert CitiesOf(s, key, key(p)) == s.cities.Keys;
    assert SoleLeader(s, key, key(p));
    LeaderIs(s, key, key(p));
  }

  const YORK: City := City(Some("p"), 1, Resources(1, 1, 1), Upgrades(0, 0, 0), 0, [])

  const REDS: League := League("alliance-1", "Reds", "p", 0, [Member("p", 0)])

  /** One city, held by the only member of an alliance that leads with its countdown running. */
  const LED: Snapshot := Snapshot(
    0, map["york" := YORK], [], map["p" := Player(Resources(1, 1, 1), ["york"], Some("alliance-1"), false)],
    Victory(Some("alliance-1"), 1, 1, Some(1)))

  const HELD: Record := Record("match", LED, [], [], [], [], [REDS])

  const ALONE: Snapshot := LED.(players := map["p" := LED.players["p"].(allianceId := None)])

  lemma IndexOfReds()
    ensures AllianceIndex(LED.players, [REDS])
  {
    assert Numeral(1, 10) == "1";
    assert REDS.id == Numbered(ALLIANCE_PREFIX, 1);
    assert REDS.members[0].playerId == "p";
    assert Lists(REDS, "p");
    assert [REDS][0] == REDS;
    assert LeagueIds([REDS]) == ["alliance-1"] by {
      assert [REDS][..0] == [];
      assert FilterMap(LEAGUE_ID, [REDS]) == [REDS.id];
    }
  }

  lemma LeavingAlone()
    ensures AllianceOutcome(LED.players, [REDS], 0, "p", Leave) == Ok(AllianceChange(ALONE.players, [], None))
  {
    assert FindLeague([REDS], "alliance-1") == Some(0);
    assert REDS.members[..0] == [] && Filter(OtherMember("p"), REDS.members) == [];
    assert [REDS][..0] == [] && Filter(OtherLeague("alliance-1"), [REDS]) == [];
    assert WithAlliance(LED.players, "p", None) == ALONE.players;
  }

  lemma LedByAlliance()
    ensures LeaderOf(LED, PublicKey(LED.players)) == Some("alliance-1") && MostHeld(LED, PublicKey(LED.players)) == 1
  {
    SoleOwnerLeads(LED, PublicKey(LED.players), "p");
  }

  lemma LedAlone()
    ensures LeaderOf(ALONE, PublicKey(ALONE.players)) == Some("p") && MostHeld(ALONE, PublicKey(ALONE.players)) == 1
  {
    SoleOwnerLeads(ALONE, PublicKey(ALONE.players), "p");
  }

  /** When the lead has just passed to another qualifying side, one sync stops the countdown and a second restarts it. */
  lemma SyncTwice(s: Snapshot, side: string, held: nat)
    requires LeaderOf(s, PublicKey(s.players)) == Some(side) && MostHeld(s, PublicKey(s.players)) == held
    requires s.victory.threshold <= held && s.victory.leader.Some? && s.victory.leader != Some(side)
    ensures Synced(s) == s.(victory := Victory(Some(side), held, s.victory.threshold, None))
    ensures Synced(Synced(s)).victory == Victory(Some(side), held, s.victory.threshold, Some(s.victory.threshold))
  {
    SyncedLeadership(s);
    SyncOnce(s, side, held);
    SyncOnce(Synced(s), side, held);
  }

  lemma SyncOnce(s: Snapshot, side: string, held: nat)
    requires LeaderOf(s, PublicKey(s.players)) == Some(side) && MostHeld(s, PublicKey(s.players)) == held
    ensures Synced(s) == s.(victory := Victory(Some(side), held, s.victory.threshold, SyncedCountdown(s.victory, Some(side), held)))
  {
  }

  ghost predicate LeftBy(r: Record, p: PlayerId, t: Record) {
    AfterAlliance(r, p, Leave).result.Ok? && t == AfterAlliance(r, p, Leave).record
  }

  lemma LeavingMoves() returns (t: Record)
    ensures LeftBy(HELD, "p", t) && t.state == Synced(ALONE) && AllianceMove(LED, t.state)
  {
    LeavingAlone();
    t := AfterAlliance(HELD, "p", Leave).record;
    assert ALONE == LED.(players := ALONE.players);
    assert ALONE.players.Keys == LED.players.Keys && NamesApart(ALONE.players);
  }

  lemma InSync()
    ensures Synced(LED) == LED
  {
    LedByAlliance();
  }

  lemma SyncedAlone()
    ensures Synced(ALONE).victory == Victory(Some("p"), 1, 1, None)
    ensures Synced(Synced(ALONE)).victory == Victory(Some("p"), 1, 1, Some(1))
  {
    LedAlone();
    SyncTwice(ALONE, "p", 1);
  }

  /**
   * From a record in sync, leaving the alliance passes the lead from it to the leaver: the sync of that action stops
   * the countdown, and one more sync would start it again.
   */
  lemma SecondSyncDiffers() returns (t: Record)
    ensures Synced(LED) == LED && AllianceIndex(LED.players, HELD.leagues)
    ensures LeftBy(HELD, "p", t) && AllianceMove(LED, t.state)
    ensures t.state.victory == Victory(Some("p"), 1, 1, None) && Synced(t.state).victory == Victory(Some("p"), 1, 1, Some(1))
  {
    InSync();
    IndexOfReds();
    SyncedAlone();
    t := LeavingMoves();
  }
}
