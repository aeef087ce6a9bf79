/** Who holds most cities, under any way of naming the side a player is on. */
module Leadership {
  import opened Collections
  import opened Domain

  datatype Coalition = Alliance(id: string) | Solo(id: string)

  function CoalitionOf(players: map<PlayerId, Player>, p: PlayerId): Coalition {
    if p in players && players[p].allianceId.Some? then Alliance(players[p].allianceId.value) else Solo(p)
  }

  /** The resolver's naming keeps alliances and lone players apart. */
  function CoalitionKey(players: map<PlayerId, Player>): PlayerId -> Coalition {
    (p: PlayerId) => CoalitionOf(players, p)
  }

  /** The registry's naming uses one name space, and an empty alliance id counts as none. */
  function PublicKey(players: map<PlayerId, Player>): PlayerId -> string {
    (p: PlayerId) =>
      if p in players && players[p].allianceId.Some? && players[p].allianceId.value != ""
      then players[p].allianceId.value else p
  }

  ghost predicate Counted(s: Snapshot, c: CityId) {
    c in s.cities && s.cities[c].owner.Some? && s.cities[c].owner.value in s.players
  }

  ghost function CitiesOf<K(!new)>(s: Snapshot, key: PlayerId -> K, k: K): set<CityId> {
    set c | c in s.cities && Counted(s, c) && key(s.cities[c].owner.value) == k
  }

  ghost function Sides<K(!new)>(s: Snapshot, key: PlayerId -> K): set<K> {
    set c | c in s.cities && Counted(s, c) :: key(s.cities[c].owner.value)
  }

  ghost function HeldBy<K(!new)>(s: Snapshot, key: PlayerId -> K): K -> int {
    (k: K) => |CitiesOf(s, key, k)|
  }

  ghost function MostHeld<K(!new)>(s: Snapshot, key: PlayerId -> K): (n: nat) {
    MostHeldNonNegative(s, key);
    MaxOver(HeldBy(s, key), Sides(s, key))
  }

  lemma MostHeldNonNegative<K(!new)>(s: Snapshot, key: PlayerId -> K)
    ensures 0 <= MaxOver(HeldBy(s, key), Sides(s, key))
  {
    if Sides(s, key) != {} {
      var k :| k in Sides(s, key) && HeldBy(s, key)(k) == MaxOver(HeldBy(s, key), Sides(s, key));
    }
  }

  /** A side that holds strictly more cities than every other side. */
  ghost predicate SoleLeader<K(!new)>(s: Snapshot, key: PlayerId -> K, k: K) {
    k in Sides(s, key) && forall j :: j in Sides(s, key) && j != k ==> HeldBy(s, key)(j) < HeldBy(s, key)(k)
  }

  ghost function LeaderOf<K(!new)>(s: Snapshot, key: PlayerId -> K): Option<K> {
    if exists k :: SoleLeader(s, key, k) then
      var k :| SoleLeader(s, key, k); Some(k)
    else None
  }

  lemma LeaderIs<K(!new)>(s: Snapshot, key: PlayerId -> K, k: K)
    requires SoleLeader(s, key, k)
    ensures LeaderOf(s, key) == Some(k) && HeldBy(s, key)(k) == MostHeld(s, key)
  {
  }

  /** The tick's rule: a leader above the threshold counts down, a new leader waits a tick. */
  function NextCountdown(v: Victory, leader: Option<string>, held: nat): Option<nat> {
    if leader == None || held < v.threshold then None
    else if v.leader == None then Some(v.threshold)
    else if v.leader != leader then None
    else match v.countdown
      case None => Some(v.threshold)
      case Some(n) => Some(if n > 0 then n - 1 else 0)
  }
}
