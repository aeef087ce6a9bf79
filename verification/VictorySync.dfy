/** The registry's own victory sync, its agreement with the resolver, and what a terminal winner proves. */
module VictorySync {
  import opened Collections
  import opened Domain
  import opened Leadership
  import opened Phases
  import opened VictorySteps
  import opened Submissions
  import opened RunInvariant
  import opened Regression

  // ---- the sync ----

  /** The registry's rule: like the tick's, but it never steps the countdown. */
  function SyncedCountdown(v: Victory, leader: Option<string>, held: nat): Option<nat> {
    if leader == None || held < v.threshold then None
    else if v.leader == None then Some(v.threshold)
    else if v.leader != leader then None
    else if v.countdown == None then Some(v.threshold)
    else v.countdown
  }

  ghost function Synced(s: Snapshot): Snapshot {
    var leader, held := LeaderOf(s, PublicKey(s.players)), MostHeld(s, PublicKey(s.players));
    s.(victory := s.victory.(leader := leader, citiesHeld := held, countdown := SyncedCountdown(s.victory, leader, held)))
  }

  method SyncVictoryState(s: Snapshot) returns (synced: Snapshot)
    ensures synced == Synced(s)
  {
    var leader, held := FindLeader(s, PublicKey(s.players));
    synced := s.(victory := s.victory.(leader := leader, citiesHeld := held, countdown := SyncedCountdown(s.victory, leader, held)));
  }

  // ---- agreement ----

  /** Some side leads alone and holds at least the threshold. */
  ghost predicate LeaderQualifies(s: Snapshot) {
    LeaderOf(s, PublicKey(s.players)).Some? && s.victory.threshold <= MostHeld(s, PublicKey(s.players))
  }

  lemma SyncedLeadership(s: Snapshot)
    ensures LeaderOf(Synced(s), PublicKey(s.players)) == LeaderOf(s, PublicKey(s.players))
    ensures MostHeld(Synced(s), PublicKey(s.players)) == MostHeld(s, PublicKey(s.players))
    ensures LeaderQualifies(Synced(s)) <==> LeaderQualifies(s)
  {
    SameLeadership(s, Synced(s), PublicKey(s.players));
  }

  /** Syncing twice is syncing once, except right after the lead has passed between qualifying leaders. */
  lemma SyncIdempotentIff(s: Snapshot)
    ensures Synced(Synced(s)) == Synced(s) <==>
      !(LeaderQualifies(s) && s.victory.leader.Some? && s.victory.leader != LeaderOf(s, PublicKey(s.players)))
  {
    SyncedLeadership(s);
  }

  /** After a tick the two rules agree: the sync is a fixed point, and a countdown runs iff a leader qualifies. */
  lemma AdvanceIsSynced(s: Snapshot, m: MapDefinition, queue: seq<OrderEnvelope>)
    requires NamesApart(s.players)
    ensures var t := Synced(Tick(s, m, queue));
      && VictoryOk(t) && Synced(t) == t
      && t.victory.leader == Tick(s, m, queue).victory.leader && t.victory.citiesHeld == Tick(s, m, queue).victory.citiesHeld
      && (t.victory.countdown.Some? <==> LeaderQualifies(t))
  {
    TickVictoryOk(s, m, queue);
    SyncAfterMatch(Tick(s, m, queue));
  }

  /** On a state whose victory record already matches, syncing only starts a missing countdown. */
  lemma SyncAfterMatch(s: Snapshot)
    requires VictoryOk(s)
    ensures VictoryOk(Synced(s)) && Synced(Synced(s)) == Synced(s)
    ensures Synced(s).victory.leader == s.victory.leader && Synced(s).victory.citiesHeld == s.victory.citiesHeld
    ensures Synced(s).victory.countdown.Some? <==> LeaderQualifies(Synced(s))
  {
    SyncedLeadership(s);
    SyncIdempotentIff(s);
  }

  // ---- runs of ticks and alliance actions ----

  /** An advanced tick: validate, resolve, step the clock, sync. */
  ghost predicate TickMove(m: MapDefinition, s: Snapshot, t: Snapshot) {
    exists queue: seq<OrderEnvelope> :: t == Synced(Tick(s, m, queue))
  }

  /** An alliance action: players change sides, everything else stays, then sync. */
  ghost predicate AllianceMove(s: Snapshot, t: Snapshot) {
    exists players: map<PlayerId, Player> :: players.Keys == s.players.Keys && NamesApart(players) && t == Synced(s.(players := players))
  }

  datatype MoveKind = Ticked | Allied | Stayed

  ghost predicate Move(m: MapDefinition, kind: MoveKind, s: Snapshot, t: Snapshot) {
    match kind
    case Ticked => TickMove(m, s, t)
    case Allied => AllianceMove(s, t)
    case Stayed => t == s
  }

  ghost predicate IsHistory(m: MapDefinition, states: seq<Snapshot>, kinds: seq<MoveKind>) {
    |states| == |kinds| + 1 && forall i :: 0 <= i < |kinds| ==> Move(m, kinds[i], states[i], states[i + 1])
  }

  function CountTicks(kinds: seq<MoveKind>): nat {
    if kinds == [] then 0 else CountTicks(kinds[..|kinds| - 1]) + if kinds[|kinds| - 1].Ticked? then 1 else 0
  }

  /** The side truly leads alone with at least the threshold of cities, and is on record with a running countdown. */
  ghost predicate Leads(s: Snapshot, side: string, threshold: nat) {
    && s.victory.leader == Some(side) && s.victory.countdown.Some?
    && SoleLeader(s, PublicKey(s.players), side)
    && HeldBy(s, PublicKey(s.players))(side) >= threshold
  }

  /** The record is true of the cities, and the countdown never exceeds the threshold. */
  ghost predicate RecordTrue(s: Snapshot, threshold: nat) {
    && s.victory.threshold == threshold
    && (s.victory.countdown.Some? ==>
          s.victory.countdown.value <= threshold && s.victory.leader.Some? && Leads(s, s.victory.leader.value, threshold))
  }

  lemma SyncedRecord(s: Snapshot, threshold: nat)
    requires s.victory.threshold == threshold
    requires s.victory.countdown.Some? ==> s.victory.countdown.value <= threshold
    ensures RecordTrue(Synced(s), threshold)
  {
    var key := PublicKey(s.players);
    if Synced(s).victory.countdown.Some? {
      var side := Synced(s).victory.leader.value;
      LeaderLeads(s, key, side);
      SyncedSole(s, side);
    }
  }

  lemma LeaderLeads(s: Snapshot, key: PlayerId -> string, side: string)
    requires LeaderOf(s, key) == Some(side)
    ensures SoleLeader(s, key, side) && HeldBy(s, key)(side) == MostHeld(s, key)
  {
    LeaderIs(s, key, side);
  }

  lemma SyncedSole(s: Snapshot, side: string)
    requires SoleLeader(s, PublicKey(s.players), side)
    ensures SoleLeader(Synced(s), PublicKey(s.players), side)
    ensures HeldBy(Synced(s), PublicKey(s.players))(side) == HeldBy(s, PublicKey(s.players))(side)
  {
    var t, key := Synced(s), PublicKey(s.players);
    assert Sides(t, key) == Sides(s, key);
    forall k ensures HeldBy(t, key)(k) == HeldBy(s, key)(k) { assert CitiesOf(t, key, k) == CitiesOf(s, key, k); }
  }

  /** What one resolved tick u of state s says about the countdown once it is synced. */
  lemma SyncedStep(v: Victory, u: Snapshot, threshold: nat)
    requires VictoryOk(u) && v.threshold == u.victory.threshold == threshold
    requires u.victory.countdown == NextCountdown(v, u.victory.leader, u.victory.citiesHeld)
    requires v.countdown.Some? ==> v.countdown.value <= threshold && v.leader.Some?
    ensures RecordTrue(Synced(u), threshold)
    ensures var w := Synced(u).victory;
      w.countdown.Some? ==>
        w.countdown == Some(threshold)
        || (v.countdown.Some? && v.leader == w.leader && v.countdown.value <= w.countdown.value + 1)
  {
    SyncedRecord(u, threshold);
    SyncAfterMatch(u);
  }

  /** How a tick, with its sync, moves the countdown: restart it, step it down by one, or stop it. */
  lemma TickCountdown(m: MapDefinition, s: Snapshot, t: Snapshot, threshold: nat)
    requires TickMove(m, s, t) && NamesApart(s.players) && RecordTrue(s, threshold)
    ensures RecordTrue(t, threshold) && NamesApart(t.players)
    ensures t.victory.countdown.Some? ==>
      t.victory.countdown == Some(threshold)
      || (s.victory.countdown.Some? && s.victory.leader == t.victory.leader
          && s.victory.countdown.value <= t.victory.countdown.value + 1)
  {
    var queue: seq<OrderEnvelope> :| t == Synced(Tick(s, m, queue));
    TickVictoryOk(s, m, queue);
    TickApart(s, m, queue);
    TickRecord(s, m, queue);
    SyncedStep(s.victory, Tick(s, m, queue), threshold);
  }

  lemma TickApart(s: Snapshot, m: MapDefinition, queue: seq<OrderEnvelope>)
    requires NamesApart(s.players)
    ensures NamesApart(Tick(s, m, queue).players) && NamesApart(Synced(Tick(s, m, queue)).players)
  {
    TickKeepsAlliances(s, m, queue);
    SameAlliancesApart(s.players, Tick(s, m, queue).players);
  }

  lemma TickRecord(s: Snapshot, m: MapDefinition, queue: seq<OrderEnvelope>)
    ensures var u := Tick(s, m, queue);
      u.victory.threshold == s.victory.threshold
      && u.victory.countdown == NextCountdown(s.victory, u.victory.leader, u.victory.citiesHeld)
  {
    TickEndsWithVictory(s, m, queue);
    TickKeepsAlliances(s, m, queue);
    EarlierPhasesKeepVictory(s, QueuedBatch(s, m, queue), m);
  }

  lemma EarlierPhasesKeepVictory(s: Snapshot, orders: OrderBatch, m: MapDefinition)
    ensures BeforeVictory(s, orders, m).victory == s.victory
  {
    BuildKeepsAlliances(ResourcePhase(s), orders);
  }

  /** An alliance action keeps the countdown where it was, restarts it, or stops it: never lower. */
  lemma AllianceCountdown(s: Snapshot, t: Snapshot, threshold: nat)
    requires AllianceMove(s, t) && RecordTrue(s, threshold)
    ensures RecordTrue(t, threshold) && NamesApart(t.players)
    ensures t.victory.countdown.Some? ==>
      t.victory.countdown == Some(threshold)
      || (s.victory.leader == t.victory.leader && s.victory.countdown == t.victory.countdown)
    ensures s.victory.countdown.Some? && t.victory.countdown.Some? ==> s.victory.countdown.value <= t.victory.countdown.value
  {
    var players: map<PlayerId, Player> :|
      players.Keys == s.players.Keys && NamesApart(players) && t == Synced(s.(players := players));
    SyncedRecord(s.(players := players), threshold);
  }

  /** From state j to state i the same side has led without a break, through at least `ticks` ticks. */
  ghost predicate LedSince(states: seq<Snapshot>, kinds: seq<MoveKind>, j: nat, i: nat, side: string, threshold: nat, ticks: int)
    requires |states| == |kinds| + 1
  {
    j <= i < |states|
    && (forall k :: j <= k <= i ==> Leads(states[k], side, threshold))
    && CountTicks(kinds[j..i]) >= ticks
  }

  ghost predicate CountdownEarned(states: seq<Snapshot>, kinds: seq<MoveKind>, i: nat, threshold: nat)
    requires |states| == |kinds| + 1 && i < |states|
  {
    var v := states[i].victory;
    v.countdown.Some? ==> v.leader.Some? && exists j: nat :: EarnedSince(states, kinds, j, i, threshold)
  }

  ghost predicate EarnedSince(states: seq<Snapshot>, kinds: seq<MoveKind>, j: nat, i: nat, threshold: nat)
    requires |states| == |kinds| + 1 && i < |states|
  {
    var v := states[i].victory;
    v.countdown.Some? && v.leader.Some?
    && LedSince(states, kinds, j, i, v.leader.value, threshold, threshold - v.countdown.value)
  }

  lemma LedNow(states: seq<Snapshot>, kinds: seq<MoveKind>, i: nat, threshold: nat)
    requires |states| == |kinds| + 1 && i < |states| && RecordTrue(states[i], threshold)
    requires states[i].victory.countdown == Some(threshold)
    ensures CountdownEarned(states, kinds, i, threshold)
  {
    assert EarnedSince(states, kinds, i, i, threshold);
  }

  lemma LedLonger(states: seq<Snapshot>, kinds: seq<MoveKind>, i: nat, threshold: nat)
    requires |states| == |kinds| + 1 && i + 1 < |states|
    requires CountdownEarned(states, kinds, i, threshold) && RecordTrue(states[i + 1], threshold)
    requires states[i].victory.countdown.Some? && states[i + 1].victory.countdown.Some?
    requires states[i].victory.leader == states[i + 1].victory.leader
    requires states[i].victory.countdown.value
      <= states[i + 1].victory.countdown.value + if kinds[i].Ticked? then 1 else 0
    ensures CountdownEarned(states, kinds, i + 1, threshold)
  {
    var v := states[i].victory;
    var j: nat :| EarnedSince(states, kinds, j, i, threshold);
    assert kinds[j..i + 1][..|kinds[j..i + 1]| - 1] == kinds[j..i];
    assert EarnedSince(states, kinds, j, i + 1, threshold);
  }

  /** Every countdown on record was earned tick by tick under one unbroken lead. */
  lemma {:induction false} EveryCountdownEarned(m: MapDefinition, states: seq<Snapshot>, kinds: seq<MoveKind>, i: nat, threshold: nat)
    requires IsHistory(m, states, kinds) && i < |states|
    requires NamesApart(states[0].players) && states[0].victory == Victory(None, 0, threshold, None)
    ensures NamesApart(states[i].players) && RecordTrue(states[i], threshold)
    ensures CountdownEarned(states, kinds, i, threshold)
  {
    if i > 0 {
      EveryCountdownEarned(m, states, kinds, i - 1, threshold);
      var s, t := states[i - 1], states[i];
      assert Move(m, kinds[i - 1], s, t);
      match kinds[i - 1] {
        case Ticked => TickCountdown(m, s, t, threshold);
        case Allied => AllianceCountdown(s, t, threshold);
        case Stayed =>
      }
      if t.victory.countdown == Some(threshold) {
        LedNow(states, kinds, i, threshold);
      } else if t.victory.countdown.Some? {
        LedLonger(states, kinds, i - 1, threshold);
      }
    }
  }

  // ---- the end of a match ----

  /** The side a tick ends the match for, if it does. */
  function TerminalWinner(s: Snapshot): Option<string> {
    if s.victory.leader == None then None
    else if s.victory.countdown != Some(0) then None
    else s.victory.leader
  }

  /**
   * A terminal winner has led alone, with at least the threshold of cities, in every state of an unbroken stretch
   * that spans at least `threshold` ticks and every alliance action between them.
   */
  lemma WinnerHasHeld(m: MapDefinition, states: seq<Snapshot>, kinds: seq<MoveKind>, i: nat, threshold: nat) returns (j: nat)
    requires IsHistory(m, states, kinds) && i < |states| && TerminalWinner(states[i]).Some?
    requires NamesApart(states[0].players) && states[0].victory == Victory(None, 0, threshold, None)
    ensures LedSince(states, kinds, j, i, TerminalWinner(states[i]).value, threshold, threshold)
  {
    EveryCountdownEarned(m, states, kinds, i, threshold);
    j :| EarnedSince(states, kinds, j, i, threshold);
  }
}
