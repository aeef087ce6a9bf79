/** How the countdown to victory moves, in numbers of cities, and that a side which leads long enough wins. */
module CountdownLaws {
  import opened Collections
  import opened Domain
  import opened Leadership
  import opened RunInvariant
  import opened Regression
  import opened VictorySync

  // ---- who leads ----

  /** The known cities of a side: an alliance's members' together, or those of a player in no alliance. */
  ghost function Territory(s: Snapshot, side: string): set<CityId> {
    set c | c in s.cities && s.cities[c].owner.Some? && s.cities[c].owner.value in s.players
      && (match s.players[s.cities[c].owner.value].allianceId
          case Some(a) => a == side
          case None => s.cities[c].owner.value == side)
  }

  /** The side holds more cities than any other. */
  ghost predicate LeadsAlone(s: Snapshot, side: string) {
    Territory(s, side) != {} && forall k: string :: k != side ==> |Territory(s, k)| < |Territory(s, side)|
  }

  ghost predicate Dominates(s: Snapshot, side: string) {
    LeadsAlone(s, side) && |Territory(s, side)| >= s.victory.threshold
  }

  lemma TerritoryIsHeld(s: Snapshot, side: string)
    requires NamesApart(s.players)
    ensures Territory(s, side) == CitiesOf(s, PublicKey(s.players), side)
  {
  }

  lemma SideHolds(s: Snapshot, k: string)
    requires NamesApart(s.players)
    ensures |Territory(s, k)| == HeldBy(s, PublicKey(s.players))(k)
    ensures k in Sides(s, PublicKey(s.players)) <==> Territory(s, k) != {}
  {
    var key := PublicKey(s.players);
    TerritoryIsHeld(s, k);
    if k in Sides(s, key) {
      var c :| c in s.cities && Counted(s, c) && key(s.cities[c].owner.value) == k;
      assert c in CitiesOf(s, key, k);
    }
    if Territory(s, k) != {} {
      var c :| c in Territory(s, k);
      assert c in CitiesOf(s, key, k);
    }
  }

  lemma LeadsAloneIff(s: Snapshot, side: string)
    requires NamesApart(s.players)
    ensures LeadsAlone(s, side) <==> SoleLeader(s, PublicKey(s.players), side)
    ensures |Territory(s, side)| == HeldBy(s, PublicKey(s.players))(side)
  {
    forall k: string
      ensures |Territory(s, k)| == HeldBy(s, PublicKey(s.players))(k)
      ensures k in Sides(s, PublicKey(s.players)) <==> Territory(s, k) != {}
    {
      SideHolds(s, k);
    }
    assert Territory(s, side) != {} ==> |Territory(s, side)| > 0;
    forall k: string | Territory(s, k) == {} ensures |Territory(s, k)| == 0 { }
  }

  lemma LeaderIsAlone(s: Snapshot, side: string)
    requires NamesApart(s.players)
    ensures LeadsAlone(s, side) <==> LeaderOf(s, PublicKey(s.players)) == Some(side)
    ensures LeadsAlone(s, side) ==> MostHeld(s, PublicKey(s.players)) == |Territory(s, side)|
  {
    LeadsAloneIff(s, side);
    if LeadsAlone(s, side) { LeaderIs(s, PublicKey(s.players), side); }
  }

  /** An empty alliance id counts as none: the player leads under its own name. */
  lemma EmptyIdIsNone(threshold: nat)
    ensures var york := City(Some("p"), 1, Resources(1, 1, 1), Upgrades(0, 0, 0), 0, []);
      var s := Snapshot(0, map["york" := york], [], map["p" := Player(Resources(0, 0, 0), ["york"], Some(""), false)],
                        Victory(None, 0, threshold, None));
      Synced(s).victory.leader == Some("p")
  {
    var york := City(Some("p"), 1, Resources(1, 1, 1), Upgrades(0, 0, 0), 0, []);
    var s := Snapshot(0, map["york" := york], [], map["p" := Player(Resources(0, 0, 0), ["york"], Some(""), false)],
                      Victory(None, 0, threshold, None));
    var key := PublicKey(s.players);
    assert Counted(s, "york") && key("p") == "p";
    assert Sides(s, key) == {"p"};
    LeaderIs(s, key, "p");
  }

  // ---- one step ----

  /** The record of t is true of its cities: the leader is the side that leads alone, if there is one. */
  ghost predicate NamesLeader(t: Snapshot, side: string) {
    && (t.victory.leader == Some(side) <==> LeadsAlone(t, side))
    && (LeadsAlone(t, side) ==> t.victory.citiesHeld == |Territory(t, side)|)
  }

  function Stepped(v: Victory, side: string): nat {
    if v.leader == Some(side) && v.countdown.Some? then Max(0, v.countdown.value - 1) else v.threshold
  }

  /**
   * The countdown runs exactly when a side dominates: one lower than before, but not below zero, if the same side was counting
   * already, and from the threshold otherwise.
   */
  ghost predicate StepsFrom(v: Victory, t: Snapshot, side: string) {
    && t.victory.threshold == v.threshold
    && (Dominates(t, side) ==> t.victory.countdown == Some(Stepped(v, side)))
    && (LeadsAlone(t, side) && |Territory(t, side)| < v.threshold ==> t.victory.countdown == None)
    && ((forall k: string :: !LeadsAlone(t, k)) ==> t.victory.countdown == None)
  }

  lemma SyncedNames(u: Snapshot, side: string)
    requires NamesApart(u.players)
    ensures NamesLeader(Synced(u), side)
  {
    SyncedLeadership(u);
    LeaderIsAlone(Synced(u), side);
  }

  lemma SyncedCounts(v: Victory, u: Snapshot, side: string)
    requires NamesApart(u.players) && VictoryOk(u) && u.victory.threshold == v.threshold
    requires u.victory.countdown == NextCountdown(v, u.victory.leader, u.victory.citiesHeld)
    ensures StepsFrom(v, Synced(u), side)
  {
    SyncedNames(u, side);
    if u.victory.leader.Some? { SomeoneLeads(u); }
  }

  lemma SomeoneLeads(u: Snapshot)
    requires NamesApart(u.players) && VictoryOk(u) && u.victory.leader.Some?
    ensures LeadsAlone(Synced(u), u.victory.leader.value)
  {
    SyncedNames(u, u.victory.leader.value);
  }

  /** A tick by itself, before any sync, lets a side that takes the lead from another wait a tick. */
  function ResolvedCountdown(v: Victory, side: string): Option<nat> {
    if v.leader.Some? && v.leader != Some(side) then None else Some(Stepped(v, side))
  }

  ghost predicate ResolvedFrom(v: Victory, t: Snapshot, side: string) {
    && (t.victory.leader == Some(side) <==> LeadsAlone(t, side))
    && (Dominates(t, side) ==> t.victory.countdown == ResolvedCountdown(v, side))
    && (t.victory.leader == None ==> t.victory.countdown == None)
  }

  lemma ResolvedCounts(v: Victory, u: Snapshot, side: string)
    requires NamesApart(u.players) && VictoryOk(u) && u.victory.threshold == v.threshold
    requires u.victory.countdown == NextCountdown(v, u.victory.leader, u.victory.citiesHeld)
    ensures ResolvedFrom(v, u, side)
  {
    LeaderIsAlone(u, side);
  }

  /** The tick's own rule, without the sync that follows it in the registry. */
  lemma TickSetsCountdown(s: Snapshot, m: MapDefinition, queue: seq<OrderEnvelope>, side: string)
    requires NamesApart(s.players)
    ensures ResolvedFrom(s.victory, Tick(s, m, queue), side)
  {
    TickVictoryOk(s, m, queue);
    TickApart(s, m, queue);
    TickRecord(s, m, queue);
    ResolvedCounts(s.victory, Tick(s, m, queue), side);
  }

  /** Every advanced tick from s to t leaves a true record and steps the countdown so. */
  lemma AdvanceCountsDown(m: MapDefinition, s: Snapshot, t: Snapshot, side: string)
    requires TickMove(m, s, t) && NamesApart(s.players)
    ensures NamesLeader(t, side) && StepsFrom(s.victory, t, side)
  {
    var queue: seq<OrderEnvelope> :| t == Synced(Tick(s, m, queue));
    TickVictoryOk(s, m, queue);
    TickApart(s, m, queue);
    TickRecord(s, m, queue);
    SyncedNames(Tick(s, m, queue), side);
    SyncedCounts(s.victory, Tick(s, m, queue), side);
  }

  /** An alliance action never steps the countdown of a side that goes on dominating. */
  lemma AllianceCountsOn(s: Snapshot, players: map<PlayerId, Player>, side: string)
    requires NamesApart(players) && s.victory.leader == Some(side) && s.victory.countdown.Some?
    requires Dominates(Synced(s.(players := players)), side)
    ensures Synced(s.(players := players)).victory.countdown == s.victory.countdown
    ensures Synced(s.(players := players)).victory.leader == Some(side)
  {
    var u := s.(players := players);
    SyncedLeadership(u);
    LeaderIsAlone(Synced(u), side);
  }

  // ---- runs ----

  /** The side is on record with n ticks to go. */
  ghost predicate Counting(s: Snapshot, side: string, n: int) {
    s.victory.leader == Some(side) && s.victory.countdown.Some? && s.victory.countdown.value == n
  }

  lemma TickCounts(m: MapDefinition, s: Snapshot, t: Snapshot, side: string)
    requires TickMove(m, s, t) && NamesApart(s.players) && Dominates(t, side)
    ensures Counting(t, side, Stepped(s.victory, side))
  {
    AdvanceCountsDown(m, s, t, side);
  }

  lemma AllianceCounts(s: Snapshot, t: Snapshot, side: string, n: nat)
    requires AllianceMove(s, t) && Counting(s, side, n) && Dominates(t, side)
    ensures Counting(t, side, n)
  {
    var players: map<PlayerId, Player> :|
      players.Keys == s.players.Keys && NamesApart(players) && t == Synced(s.(players := players));
    AllianceCountsOn(s, players, side);
  }

  lemma CountsOn(m: MapDefinition, kind: MoveKind, s: Snapshot, t: Snapshot, side: string, n: nat)
    requires Move(m, kind, s, t) && NamesApart(s.players) && Counting(s, side, n) && Dominates(t, side)
    ensures Counting(t, side, if kind.Ticked? then Max(0, n - 1) else n)
  {
    match kind
    case Ticked => TickCounts(m, s, t, side);
    case Allied => AllianceCounts(s, t, side, n);
    case Stayed =>
  }

  ghost function DominatesIn(states: seq<Snapshot>, side: string): nat -> bool {
    (k: nat) => k < |states| && Dominates(states[k], side)
  }

  /** In state k the side has n ticks to go. */
  ghost function CountIn(states: seq<Snapshot>, side: string): (nat, nat) -> bool {
    (k: nat, n: nat) => k < |states| && Counting(states[k], side, n)
  }

  lemma CountsOnInRun(m: MapDefinition, states: seq<Snapshot>, kinds: seq<MoveKind>, k: nat, side: string, threshold: nat, n: nat)
    requires IsHistory(m, states, kinds) && k + 1 < |states| && CountIn(states, side)(k, n) && DominatesIn(states, side)(k + 1)
    requires NamesApart(states[0].players) && states[0].victory == Victory(None, 0, threshold, None)
    ensures CountIn(states, side)(k + 1, if kinds[k].Ticked? then Max(0, n - 1) else n)
  {
    EveryCountdownEarned(m, states, kinds, k, threshold);
    assert Move(m, kinds[k], states[k], states[k + 1]);
    CountsOn(m, kinds[k], states[k], states[k + 1], side, n);
  }

  ghost predicate StepsDown(counting: (nat, nat) -> bool, kinds: seq<MoveKind>, j: nat, i: nat)
    requires j <= i <= |kinds|
  {
    forall k: nat, l: nat :: j <= k < i && counting(k, l) ==> counting(k + 1, if kinds[k].Ticked? then Max(0, l - 1) else l)
  }

  lemma EachStepCounts(m: MapDefinition, states: seq<Snapshot>, kinds: seq<MoveKind>, j: nat, i: nat, side: string, threshold: nat)
    requires IsHistory(m, states, kinds) && j <= i < |states|
    requires NamesApart(states[0].players) && states[0].victory == Victory(None, 0, threshold, None)
    requires forall k: nat :: j < k <= i ==> DominatesIn(states, side)(k)
    ensures StepsDown(CountIn(states, side), kinds, j, i)
  {
    forall k: nat, l: nat | j <= k < i && CountIn(states, side)(k, l)
      ensures CountIn(states, side)(k + 1, if kinds[k].Ticked? then Max(0, l - 1) else l)
    {
      CountsOnInRun(m, states, kinds, k, side, threshold, l);
    }
  }

  lemma {:induction false} CountsDown(counting: (nat, nat) -> bool, kinds: seq<MoveKind>, j: nat, i: nat, n: nat)
    requires j <= i <= |kinds| && counting(j, n)
    requires StepsDown(counting, kinds, j, i)
    ensures counting(i, Max(0, n - CountTicks(kinds[j..i])))
    decreases i
  {
    if i == j {
      assert kinds[j..i] == [];
    } else {
      CountsDown(counting, kinds, j, i - 1, n);
      assert kinds[j..i][..i - 1 - j] == kinds[j..i - 1];
    }
  }

  /** While a side dominates, its countdown steps down by one with every tick, to zero, and with nothing else. */
  lemma SteadyLeadCounts(m: MapDefinition, states: seq<Snapshot>, kinds: seq<MoveKind>, j: nat, i: nat,
                         side: string, threshold: nat, n: nat)
    requires IsHistory(m, states, kinds) && j <= i < |states| && CountIn(states, side)(j, n)
    requires NamesApart(states[0].players) && states[0].victory == Victory(None, 0, threshold, None)
    requires forall k: nat :: j < k <= i ==> DominatesIn(states, side)(k)
    ensures CountIn(states, side)(i, Max(0, n - CountTicks(kinds[j..i])))
  {
    EachStepCounts(m, states, kinds, j, i, side, threshold);
    CountsDown(CountIn(states, side), kinds, j, i, n);
  }

  lemma StepBounded(v: Victory, side: string)
    requires v.countdown.Some? ==> v.countdown.value <= v.threshold
    ensures Stepped(v, side) <= v.threshold
  {
  }

  /** State j was made by a tick. */
  ghost function TickedIn(m: MapDefinition, states: seq<Snapshot>): nat -> bool {
    (j: nat) => 0 < j < |states| && TickMove(m, states[j - 1], states[j])
  }

  ghost function BoundedIn(states: seq<Snapshot>, threshold: nat): nat -> bool {
    (j: nat) => j < |states| && NamesApart(states[j].players) && states[j].victory.threshold == threshold
      && (states[j].victory.countdown.Some? ==> states[j].victory.countdown.value <= threshold)
  }

  lemma BoundedInRun(m: MapDefinition, states: seq<Snapshot>, kinds: seq<MoveKind>, j: nat, threshold: nat)
    requires IsHistory(m, states, kinds) && j < |states|
    requires NamesApart(states[0].players) && states[0].victory == Victory(None, 0, threshold, None)
    ensures BoundedIn(states, threshold)(j)
  {
    EveryCountdownEarned(m, states, kinds, j, threshold);
  }

  lemma CountdownStarts(m: MapDefinition, states: seq<Snapshot>, j: nat, side: string, threshold: nat) returns (n: nat)
    requires TickedIn(m, states)(j) && DominatesIn(states, side)(j) && BoundedIn(states, threshold)(j - 1)
    ensures n <= threshold && CountIn(states, side)(j, n)
  {
    n := Stepped(states[j - 1].victory, side);
    StepBounded(states[j - 1].victory, side);
    TickCounts(m, states[j - 1], states[j], side);
  }

  lemma CountsOut(m: MapDefinition, states: seq<Snapshot>, kinds: seq<MoveKind>, j: nat, i: nat, side: string, threshold: nat, n: nat)
    requires IsHistory(m, states, kinds) && j <= i < |states| && CountIn(states, side)(j, n) && n <= CountTicks(kinds[j..i])
    requires NamesApart(states[0].players) && states[0].victory == Victory(None, 0, threshold, None)
    requires forall k: nat :: j < k <= i ==> DominatesIn(states, side)(k)
    ensures WonBy(states, side)(i)
  {
    SteadyLeadCounts(m, states, kinds, j, i, side, threshold, n);
  }

  ghost function WonBy(states: seq<Snapshot>, side: string): nat -> bool {
    (i: nat) => i < |states| && TerminalWinner(states[i]) == Some(side)
  }

  /** The last step before state j was a tick. */
  ghost function AfterTick(kinds: seq<MoveKind>): nat -> bool {
    (j: nat) => 0 < j <= |kinds| && kinds[j - 1].Ticked?
  }

  lemma TickedInRun(m: MapDefinition, states: seq<Snapshot>, kinds: seq<MoveKind>, j: nat)
    requires IsHistory(m, states, kinds) && AfterTick(kinds)(j)
    ensures TickedIn(m, states)(j)
  {
    assert Move(m, kinds[j - 1], states[j - 1], states[j]);
  }

  lemma StartsInRun(m: MapDefinition, states: seq<Snapshot>, kinds: seq<MoveKind>, j: nat, side: string, threshold: nat) returns (n: nat)
    requires IsHistory(m, states, kinds) && AfterTick(kinds)(j) && DominatesIn(states, side)(j) && BoundedIn(states, threshold)(j - 1)
    ensures n <= threshold && CountIn(states, side)(j, n)
  {
    TickedInRun(m, states, kinds, j);
    n := CountdownStarts(m, states, j, side, threshold);
  }

  /** A side that dominates after a tick, and in every state of a stretch with `threshold` more ticks, has won by the end of it. */
  lemma SteadyLeadWins(m: MapDefinition, states: seq<Snapshot>, kinds: seq<MoveKind>, j: nat, i: nat, side: string, threshold: nat)
    requires IsHistory(m, states, kinds) && j <= i < |states| && AfterTick(kinds)(j)
    requires NamesApart(states[0].players) && states[0].victory == Victory(None, 0, threshold, None)
    requires forall k: nat :: j <= k <= i ==> DominatesIn(states, side)(k)
    requires CountTicks(kinds[j..i]) >= threshold
    ensures WonBy(states, side)(i)
  {
    BoundedInRun(m, states, kinds, j - 1, threshold);
    var n := StartsInRun(m, states, kinds, j, side, threshold);
    CountsOut(m, states, kinds, j, i, side, threshold, n);
  }
}
