/** Whole runs of a match record: commands, single requests and ticks in any order, and what holds throughout. */
module RecordRuns {
  import opened Collections
  import opened Domain
  import opened Phases
  import opened Invariants
  import opened Submissions
  import opened OrderIndependence
  import opened RunInvariant
  import opened Regression
  import opened VictorySync
  import opened RecordTypes
  import opened AllianceRules
  import opened AllianceDerivation
  import opened TreatyRules
  import opened HostileBreaks
  import opened RecordSteps

  // ---- events ----

  /** Everything a match record goes through: whole commands, the separate requests for each of their parts, and ticks. */
  datatype RecordEvent =
    | Commanded(player: PlayerId, command: Command)
    | Submitted(envelope: OrderEnvelope)
    | Overridden(player: PlayerId, tick: nat, envelope: OrderEnvelope)
    | Said(player: PlayerId, tick: nat, post: CommandMessage)
    | Treated(player: PlayerId, action: TreatyAction)
    | Sided(player: PlayerId, change: AllianceAction)
    | TickDue

  ghost function NextRecord(r: Record, m: MapDefinition, e: RecordEvent): Record {
    match e
    case Commanded(p, c) => AfterCommand(r, p, c).record
    case Submitted(envelope) => r.(submissions := r.submissions + [envelope])
    case Overridden(p, tick, envelope) => AfterOverride(r, p, tick, envelope)
    case Said(p, tick, post) => AfterMessage(r, p, tick, post).record
    case Treated(p, action) => AfterTreatyCommand(r, p, action).record
    case Sided(p, change) => AfterAlliance(r, p, change).record
    case TickDue => Advanced(r, m)
  }

  ghost predicate IsRecordRun(m: MapDefinition, records: seq<Record>, events: seq<RecordEvent>) {
    |records| == |events| + 1 && forall i :: 0 <= i < |events| ==> records[i + 1] == NextRecord(records[i], m, events[i])
  }

  // ---- the invariant ----

  ghost predicate RecordInv(r: Record, m: MapDefinition, threshold: nat) {
    && StateInv(r.state, m) && r.state.victory.threshold == threshold
    && AllianceIndex(r.state.players, r.leagues) && PlainNames(r.state.players.Keys)
    && TreatiesOk(r.treaties) && NoSelfTreaties(r.treaties) && MessagesNumbered(r.messages)
  }

  /** What only ever grows or ages from one record to a later one. */
  ghost predicate Continues(r: Record, t: Record) {
    Evolves(r.treaties, t.treaties) && r.messages <= t.messages
  }

  lemma ContinuesTransitive(a: Record, b: Record, c: Record)
    requires Continues(a, b) && Continues(b, c)
    ensures Continues(a, c)
  {
    EvolvesTransitive(a.treaties, b.treaties, c.treaties);
  }

  lemma ContinuesItself(r: Record)
    ensures Continues(r, r)
  {
  }

  // ---- messages and treaties leave the state alone ----

  ghost predicate SameStateAndLeagues(r: Record, t: Record) {
    t.state == r.state && t.leagues == r.leagues && t.matchId == r.matchId
  }

  lemma {:induction false} MessagesFrame(r: Record, p: PlayerId, tick: nat, posts: seq<CommandMessage>)
    requires MessagesNumbered(r.messages)
    ensures var t := AfterMessages(r, p, tick, posts).record;
      SameStateAndLeagues(r, t) && t.treaties == r.treaties && r.messages <= t.messages && MessagesNumbered(t.messages)
  {
    if posts != [] { MessagesFrame(r, p, tick, posts[..|posts| - 1]); }
  }

  lemma TreatyFrame(r: Record, p: PlayerId, action: TreatyAction)
    requires MessagesNumbered(r.messages) && TreatiesOk(r.treaties) && NoSelfTreaties(r.treaties)
    ensures var t := AfterTreatyCommand(r, p, action).record;
      SameStateAndLeagues(r, t) && MessagesNumbered(t.messages) && TreatiesOk(t.treaties) && NoSelfTreaties(t.treaties) && Continues(r, t)
  {
    ContinuesItself(r);
    if p != action.counterparty { ActionJoinsTwo(r.treaties, r.state.tick, p, action); }
    match TreatyOutcome(r.treaties, r.state.tick, p, action)
    case Err(_) =>
    case Ok(change) =>
      ActionKeepsTreaties(r.treaties, r.state.tick, p, action);
      PostedKeepsNumbers(r.messages, r.state.tick, match change.news { case None => [] case Some(text) => [text] });
  }

  lemma {:induction false} TreatiesFrame(r: Record, p: PlayerId, actions: seq<TreatyAction>)
    requires MessagesNumbered(r.messages) && TreatiesOk(r.treaties) && NoSelfTreaties(r.treaties)
    ensures var t := AfterTreaties(r, p, actions).record;
      SameStateAndLeagues(r, t) && MessagesNumbered(t.messages) && TreatiesOk(t.treaties) && NoSelfTreaties(t.treaties) && Continues(r, t)
  {
    ContinuesItself(r);
    if actions != [] {
      var init := actions[..|actions| - 1];
      TreatiesFrame(r, p, init);
      var earlier := AfterTreaties(r, p, init);
      if earlier.result.Ok? {
        TreatyFrame(earlier.record, p, actions[|actions| - 1]);
        ContinuesTransitive(r, earlier.record, AfterTreatyCommand(earlier.record, p, actions[|actions| - 1]).record);
      }
    }
  }

  // ---- alliances change sides and nothing else ----

  ghost predicate OnlySidesDiffer(a: map<PlayerId, Player>, b: map<PlayerId, Player>) {
    a.Keys == b.Keys && forall p :: p in a ==> b[p] == a[p].(allianceId := b[p].allianceId)
  }

  lemma AllianceChangesSides(players: map<PlayerId, Player>, leagues: seq<League>, tick: nat, p: PlayerId, action: AllianceAction)
    ensures match AllianceOutcome(players, leagues, tick, p, action)
      case Ok(change) => OnlySidesDiffer(players, change.players)
      case Err(_) => true
  {
  }

  lemma SidesKeepInv(s: Snapshot, m: MapDefinition, players: map<PlayerId, Player>)
    requires StateInv(s, m) && OnlySidesDiffer(s.players, players)
    ensures StateInv(s.(players := players), m)
  {
    OwnershipKept(s, s.(players := players));
  }

  lemma SyncKeepsInv(s: Snapshot, m: MapDefinition)
    requires StateInv(s, m)
    ensures StateInv(Synced(s), m) && Synced(s).players == s.players && Synced(s).cities == s.cities && Synced(s).armies == s.armies
    ensures Synced(s).victory.threshold == s.victory.threshold
  {
    OwnershipKept(s, Synced(s));
  }

  lemma AllianceStep(r: Record, m: MapDefinition, p: PlayerId, action: AllianceAction, threshold: nat)
    requires RecordInv(r, m, threshold)
    ensures var t := AfterAlliance(r, p, action).record;
      RecordInv(t, m, threshold) && Continues(r, t) && (t.state == r.state || AllianceMove(r.state, t.state))
  {
    ContinuesItself(r);
    match AllianceOutcome(r.state.players, r.leagues, r.state.tick, p, action)
    case Err(_) =>
    case Ok(change) =>
      ActionKeepsIndex(r.state.players, r.leagues, r.state.tick, p, action);
      AllianceChangesSides(r.state.players, r.leagues, r.state.tick, p, action);
      SidesKeepInv(r.state, m, change.players);
      SyncKeepsInv(r.state.(players := change.players), m);
      IndexKeepsNamesApart(change.players, change.leagues);
  }

  // ---- commands ----

  lemma MutationsStep(r: Record, m: MapDefinition, p: PlayerId, c: Command, threshold: nat)
    requires RecordInv(r, m, threshold)
    ensures var t := AfterMutations(r, p, c).record;
      RecordInv(t, m, threshold) && Continues(r, t) && (t.state == r.state || AllianceMove(r.state, t.state))
  {
    var start := WithSubmission(r, p, c);
    MessagesFrame(start, p, c.tick, c.messages);
    var said := AfterMessages(start, p, c.tick, c.messages);
    TreatiesFrame(said.record, p, c.treaties);
    var dealt := AfterTreaties(said.record, p, c.treaties);
    ContinuesItself(r);
    ContinuesTransitive(r, said.record, dealt.record);
    if said.result.Ok? && dealt.result.Ok? && c.alliance.Some? {
      AllianceStep(dealt.record, m, p, c.alliance.value, threshold);
      ContinuesTransitive(r, dealt.record, AfterAlliance(dealt.record, p, c.alliance.value).record);
    }
  }

  lemma CommandStep(r: Record, m: MapDefinition, p: PlayerId, c: Command, threshold: nat)
    requires RecordInv(r, m, threshold)
    ensures var t := AfterCommand(r, p, c).record;
      RecordInv(t, m, threshold) && Continues(r, t) && (t.state == r.state || AllianceMove(r.state, t.state))
  {
    ContinuesItself(r);
    MutationsStep(r, m, p, c, threshold);
  }

  // ---- ticks ----

  lemma {:induction false} SameSidesIndex(a: map<PlayerId, Player>, b: map<PlayerId, Player>, leagues: seq<League>)
    requires AllianceIndex(a, leagues) && SameAlliances(a, b)
    ensures AllianceIndex(b, leagues)
  {
    forall p, id | p in b ensures b[p].allianceId == Some(id) <==> InLeague(leagues, id, p) {
      assert a[p].allianceId == Some(id) <==> InLeague(leagues, id, p);
    }
  }

  lemma TickStep(r: Record, m: MapDefinition, threshold: nat)
    requires RecordInv(r, m, threshold)
    ensures IncomeStorable(r.state)
    ensures RecordInv(Advanced(r, m), m, threshold) && Continues(r, Advanced(r, m))
    ensures TickMove(m, r.state, Advanced(r, m).state)
  {
    var queue := DueQueue(r);
    var u := Tick(r.state, m, queue);
    TickKeepsInv(r.state, m, queue);
    TickKeepsAlliances(r.state, m, queue);
    SyncKeepsInv(u, m);
    SameSidesIndex(r.state.players, u.players, r.leagues);
    PreparedStep(r, m);
  }

  lemma PreparedStep(r: Record, m: MapDefinition)
    requires TreatiesOk(r.treaties) && NoSelfTreaties(r.treaties) && MessagesNumbered(r.messages)
    ensures TreatiesOk(Prepared(r, m).treaties) && NoSelfTreaties(Prepared(r, m).treaties)
    ensures MessagesNumbered(Prepared(r, m).messages) && Continues(r, Prepared(r, m))
  {
    var attacks := AttacksOf(r.state, QueuedBatch(r.state, m, DueQueue(r)).movements);
    AttacksKeepTreaties(r.treaties, attacks, r.state.tick);
    AgedJoinsTwo(r.treaties, Prepared(r, m).treaties);
    PostedKeepsNumbers(r.messages, r.state.tick, BreakNews(r.treaties, attacks, r.state.tick));
  }

  // ---- runs ----

  lemma EventStep(r: Record, m: MapDefinition, e: RecordEvent, threshold: nat)
    requires RecordInv(r, m, threshold)
    ensures RecordInv(NextRecord(r, m, e), m, threshold) && Continues(r, NextRecord(r, m, e))
    ensures var s, t := r.state, NextRecord(r, m, e).state;
      if e.TickDue? then TickMove(m, s, t) else t == s || AllianceMove(s, t)
  {
    ContinuesItself(r);
    match e
    case Commanded(p, c) => CommandStep(r, m, p, c, threshold);
    case Submitted(_) =>
    case Overridden(_, _, _) =>
    case Said(_, _, _) =>
    case Treated(p, action) => TreatyFrame(r, p, action);
    case Sided(p, change) => AllianceStep(r, m, p, change, threshold);
    case TickDue => TickStep(r, m, threshold);
  }

  /** Requests and ticks in any order keep the whole invariant, and every tick of such a run can be resolved. */
  lemma {:induction false} RecordRunKeepsInv(m: MapDefinition, records: seq<Record>, events: seq<RecordEvent>, i: nat, threshold: nat)
    requires IsRecordRun(m, records, events) && i < |records| && RecordInv(records[0], m, threshold)
    ensures RecordInv(records[i], m, threshold) && IncomeStorable(records[i].state)
  {
    if i > 0 {
      RecordRunKeepsInv(m, records, events, i - 1, threshold);
      EventStep(records[i - 1], m, events[i - 1], threshold);
    }
    TickStep(records[i], m, threshold);
  }

  /** Messages are never lost or reordered, and treaties only age, between any two points of a run. */
  lemma {:induction false} RecordRunContinues(m: MapDefinition, records: seq<Record>, events: seq<RecordEvent>, i: nat, j: nat, threshold: nat)
    requires IsRecordRun(m, records, events) && i <= j < |records| && RecordInv(records[0], m, threshold)
    ensures Continues(records[i], records[j])
    decreases j
  {
    ContinuesItself(records[i]);
    if i < j {
      RecordRunContinues(m, records, events, i, j - 1, threshold);
      RecordRunKeepsInv(m, records, events, j - 1, threshold);
      EventStep(records[j - 1], m, events[j - 1], threshold);
      ContinuesTransitive(records[i], records[j - 1], records[j]);
    }
  }

  /** After every tick of a record's run the harness's checks pass, exactly when the threshold fits the map. */
  lemma TickedRecordPasses(m: MapDefinition, records: seq<Record>, events: seq<RecordEvent>, i: nat, threshold: nat)
    requires IsRecordRun(m, records, events) && i < |events| && RecordInv(records[0], m, threshold)
    requires events[i] == TickDue
    ensures RegressionPasses(records[i + 1].state, m) <==> threshold <= |m.cities|
    ensures Synced(records[i + 1].state) == records[i + 1].state
  {
    var r, t := records[i], records[i + 1].state;
    RecordRunKeepsInv(m, records, events, i, threshold);
    RecordRunKeepsInv(m, records, events, i + 1, threshold);
    IndexKeepsNamesApart(r.state.players, r.leagues);
    AdvanceIsSynced(r.state, m, DueQueue(r));
    TickVictoryOk(r.state, m, DueQueue(r));
    SyncedElimination(Tick(r.state, m, DueQueue(r)));
    SameSize(t.cities, m.cities);
    if threshold <= |m.cities| { InvariantPasses(t, m); }
  }

  /** After every tick the harness's whole verdict: the threshold fits, and so did the spending of that tick. */
  lemma TickedRecordVerdict(m: MapDefinition, records: seq<Record>, events: seq<RecordEvent>, i: nat, threshold: nat)
    requires IsRecordRun(m, records, events) && i < |events| && RecordInv(records[0], m, threshold)
    requires events[i] == TickDue
    ensures HarnessPasses(records[i + 1].state, m)
      <==> threshold <= |m.cities| && SpendingFits(records[i].state, m, DueQueue(records[i]))
  {
    TickedRecordPasses(m, records, events, i, threshold);
    AdvancedSigns(records[i], m);
  }

  lemma AdvancedSigns(r: Record, m: MapDefinition)
    ensures SignsPass(Advanced(r, m).state) <==> SpendingFits(r.state, m, DueQueue(r))
  {
    SignsAfterTick(r.state, m, DueQueue(r));
    SyncedSigns(Tick(r.state, m, DueQueue(r)));
  }

  lemma SyncedSigns(s: Snapshot)
    ensures SignsPass(Synced(s)) <==> SignsPass(s)
  {
  }

  lemma SyncedElimination(s: Snapshot)
    requires EliminationOk(s)
    ensures EliminationOk(Synced(s))
  {
    forall p ensures Present(Synced(s), p) <==> Present(s, p) { }
  }

  // ---- the winner of a record's run ----

  ghost function KindsOf(records: seq<Record>, events: seq<RecordEvent>): seq<MoveKind>
    requires |records| == |events| + 1
  {
    seq(|events|, i requires 0 <= i < |events| =>
      if events[i].TickDue? then Ticked else if records[i + 1].state == records[i].state then Stayed else Allied)
  }

  ghost function StatesOf(records: seq<Record>): seq<Snapshot> {
    seq(|records|, i requires 0 <= i < |records| => records[i].state)
  }

  lemma RunIsHistory(m: MapDefinition, records: seq<Record>, events: seq<RecordEvent>, threshold: nat)
    requires IsRecordRun(m, records, events) && RecordInv(records[0], m, threshold)
    ensures IsHistory(m, StatesOf(records), KindsOf(records, events))
  {
    var kinds, states := KindsOf(records, events), StatesOf(records);
    forall i | 0 <= i < |kinds| ensures Move(m, kinds[i], states[i], states[i + 1]) {
      RecordRunKeepsInv(m, records, events, i, threshold);
      EventStep(records[i], m, events[i], threshold);
    }
  }

  /**
   * In any run of requests and ticks from a freshly made record, a terminal winner has led alone with at least the
   * threshold of cities at every moment of an unbroken stretch of at least `threshold` ticks.
   */
  lemma RecordWinnerHasHeld(m: MapDefinition, records: seq<Record>, events: seq<RecordEvent>, i: nat, threshold: nat) returns (j: nat)
    requires IsRecordRun(m, records, events) && i < |records| && RecordInv(records[0], m, threshold)
    requires records[0].state.victory == Victory(None, 0, threshold, None)
    requires TerminalWinner(records[i].state).Some?
    ensures LedSince(StatesOf(records), KindsOf(records, events), j, i, TerminalWinner(records[i].state).value, threshold, threshold)
  {
    RunIsHistory(m, records, events, threshold);
    IndexKeepsNamesApart(records[0].state.players, records[0].leagues);
    j := WinnerHasHeld(m, StatesOf(records), KindsOf(records, events), i, threshold);
  }

  // ---- the treaties of a record's run ----

  function Acts(p: PlayerId, actions: seq<TreatyAction>, tick: nat): seq<TreatyEvent> {
    if actions == [] then [] else Acts(p, actions[..|actions| - 1], tick) + [Acted(p, actions[|actions| - 1], tick)]
  }

  /** What one event of a record's run means to its treaties: the actions that took effect, or the attacks of the tick. */
  ghost function TreatyEventsIn(r: Record, m: MapDefinition, e: RecordEvent): seq<TreatyEvent> {
    match e
    case Commanded(p, c) => if AfterCommand(r, p, c).result.Ok? then Acts(p, c.treaties, r.state.tick) else []
    case Treated(p, action) => if AfterTreatyCommand(r, p, action).result.Ok? then Acts(p, [action], r.state.tick) else []
    case TickDue => [Attacked(AttacksOf(r.state, QueuedBatch(r.state, m, DueQueue(r)).movements), r.state.tick)]
    case _ => []
  }

  ghost function EventsAt(m: MapDefinition, records: seq<Record>, events: seq<RecordEvent>): nat -> seq<TreatyEvent> {
    (j: nat) => if j < |events| && j < |records| then TreatyEventsIn(records[j], m, events[j]) else []
  }

  function Joined<T>(parts: nat -> seq<T>, i: nat): seq<T> {
    if i == 0 then [] else Joined(parts, i - 1) + parts(i - 1)
  }

  /** What the first i events of a run mean to the treaties, in order. */
  ghost function TreatyEventsOf(m: MapDefinition, records: seq<Record>, events: seq<RecordEvent>, i: nat): seq<TreatyEvent> {
    Joined(EventsAt(m, records, events), i)
  }

  lemma OneMoreEvent(before: seq<TreatyEvent>, e: TreatyEvent)
    ensures AfterEvents(before + [e]) == AfterEvent(AfterEvents(before), e)
  {
    assert (before + [e])[..|before + [e]| - 1] == before;
  }

  /** The treaty actions of a list that goes through are exactly its events. */
  lemma {:induction false} ActsAreEvents(r: Record, p: PlayerId, actions: seq<TreatyAction>, before: seq<TreatyEvent>)
    requires AfterEvents(before) == r.treaties && AfterTreaties(r, p, actions).result.Ok?
    ensures AfterEvents(before + Acts(p, actions, r.state.tick)) == AfterTreaties(r, p, actions).record.treaties
    ensures AfterTreaties(r, p, actions).record.state == r.state
  {
    if actions == [] {
      assert before + [] == before;
    } else {
      var init, action := actions[..|actions| - 1], actions[|actions| - 1];
      ActsAreEvents(r, p, init, before);
      var earlier := before + Acts(p, init, r.state.tick);
      assert before + Acts(p, actions, r.state.tick) == earlier + [Acted(p, action, r.state.tick)];
      OneMoreEvent(earlier, Acted(p, action, r.state.tick));
    }
  }

  lemma OneTreaty(r: Record, p: PlayerId, action: TreatyAction)
    ensures AfterTreaties(r, p, [action]).record == AfterTreatyCommand(r, p, action).record
    ensures AfterTreaties(r, p, [action]).result.Ok? <==> AfterTreatyCommand(r, p, action).result.Ok?
  {
    assert [action][..0] == [];
    assert AfterTreaties(r, p, []) == Progress(r, Ok([]));
  }

  /** Where the treaties of a successful command are dealt with: after its submission and messages, on the same treaties. */
  lemma CommandDeals(r: Record, p: PlayerId, c: Command) returns (start: Record)
    requires MessagesNumbered(r.messages)
    ensures start.state == r.state && start.treaties == r.treaties && MessagesNumbered(start.messages)
    ensures AfterCommand(r, p, c).result.Ok? ==>
      AfterTreaties(start, p, c.treaties).result.Ok?
      && AfterCommand(r, p, c).record.treaties == AfterTreaties(start, p, c.treaties).record.treaties
    ensures AfterCommand(r, p, c).result.Err? ==> AfterCommand(r, p, c).record == r
  {
    var first := WithSubmission(r, p, c);
    MessagesFrame(first, p, c.tick, c.messages);
    start := AfterMessages(first, p, c.tick, c.messages).record;
  }

  lemma EventIsTreatyEvents(r: Record, m: MapDefinition, e: RecordEvent, before: seq<TreatyEvent>)
    requires AfterEvents(before) == r.treaties && MessagesNumbered(r.messages)
    ensures AfterEvents(before + TreatyEventsIn(r, m, e)) == NextRecord(r, m, e).treaties
  {
    assert before + [] == before;
    match e
    case Commanded(p, c) =>
      var start := CommandDeals(r, p, c);
      if AfterCommand(r, p, c).result.Ok? { ActsAreEvents(start, p, c.treaties, before); }
    case Treated(p, action) =>
      OneTreaty(r, p, action);
      if AfterTreatyCommand(r, p, action).result.Ok? { ActsAreEvents(r, p, [action], before); }
    case TickDue => OneMoreEvent(before, TreatyEventsIn(r, m, e)[0]);
    case _ =>
  }

  lemma {:induction false} ReplayJoined(parts: nat -> seq<TreatyEvent>, lists: nat -> seq<Treaty>, i: nat)
    requires lists(0) == []
    requires forall j: nat, before :: j < i && AfterEvents(before) == lists(j) ==> AfterEvents(before + parts(j)) == lists(j + 1)
    ensures AfterEvents(Joined(parts, i)) == lists(i)
  {
    if i > 0 { ReplayJoined(parts, lists, i - 1); }
  }

  lemma EventReplays(m: MapDefinition, records: seq<Record>, events: seq<RecordEvent>, j: nat, before: seq<TreatyEvent>)
    requires IsRecordRun(m, records, events) && j < |events| && MessagesNumbered(records[j].messages)
    requires AfterEvents(before) == records[j].treaties
    ensures AfterEvents(before + EventsAt(m, records, events)(j)) == records[j + 1].treaties
  {
    EventIsTreatyEvents(records[j], m, events[j], before);
  }

  function TreatiesAt(records: seq<Record>): nat -> seq<Treaty> {
    (j: nat) => if j < |records| then records[j].treaties else []
  }

  /** The treaties of a record are what the treaty machine makes of the events of its run, and of nothing else. */
  lemma RunIsTreatyRun(m: MapDefinition, records: seq<Record>, events: seq<RecordEvent>, i: nat, threshold: nat)
    requires IsRecordRun(m, records, events) && i < |records| && RecordInv(records[0], m, threshold) && records[0].treaties == []
    ensures AfterEvents(TreatyEventsOf(m, records, events, i)) == records[i].treaties
  {
    var parts, lists := EventsAt(m, records, events), TreatiesAt(records);
    forall j: nat, before | j < i && AfterEvents(before) == lists(j) ensures AfterEvents(before + parts(j)) == lists(j + 1) {
      RecordRunKeepsInv(m, records, events, j, threshold);
      EventReplays(m, records, events, j, before);
    }
    ReplayJoined(parts, lists, i);
  }

  // ---- who signed ----

  /** The k-th treaty has been in force at some time. */
  ghost predicate SignedIn(treaties: seq<Treaty>, k: nat) {
    k < |treaties| && treaties[k].signedTick.Some?
  }

  /** The player accepts just this treaty, now, as the one of the pair who did not propose it. */
  ghost predicate Accepts(p: PlayerId, a: TreatyAction, t: Treaty, tick: nat) {
    && a.verb == Accept && a.kind == t.kind && PairOf(p, a.counterparty) == (t.playerA, t.playerB)
    && p != t.proposedBy && t.signedTick == Some(tick)
  }

  lemma {:induction false} ListSigns(r: Record, p: PlayerId, actions: seq<TreatyAction>, k: nat) returns (a: TreatyAction)
    requires MessagesNumbered(r.messages) && TreatiesOk(r.treaties) && NoSelfTreaties(r.treaties)
    requires AfterTreaties(r, p, actions).result.Ok?
    requires !SignedIn(r.treaties, k) && SignedIn(AfterTreaties(r, p, actions).record.treaties, k)
    ensures a in actions && Accepts(p, a, AfterTreaties(r, p, actions).record.treaties[k], r.state.tick)
  {
    var init, last := actions[..|actions| - 1], actions[|actions| - 1];
    var earlier := AfterTreaties(r, p, init).record;
    TreatiesFrame(r, p, init);
    TreatyFrame(earlier, p, last);
    if SignedIn(earlier.treaties, k) {
      a := ListSigns(r, p, init, k);
      assert Ages(earlier.treaties[k], AfterTreatyCommand(earlier, p, last).record.treaties[k]);
    } else {
      a := last;
      StepSigns(earlier.treaties, Acted(p, last, r.state.tick), k);
    }
  }

  /** The event is a request by p that succeeded and held the action. */
  ghost predicate Took(r: Record, e: RecordEvent, p: PlayerId, a: TreatyAction) {
    match e
    case Commanded(q, c) => q == p && a in c.treaties && AfterCommand(r, q, c).result.Ok?
    case Treated(q, action) => q == p && a == action && AfterTreatyCommand(r, q, action).result.Ok?
    case _ => false
  }

  lemma CommandSigns(r: Record, p: PlayerId, c: Command, k: nat) returns (a: TreatyAction)
    requires MessagesNumbered(r.messages) && TreatiesOk(r.treaties) && NoSelfTreaties(r.treaties)
    requires !SignedIn(r.treaties, k) && SignedIn(AfterCommand(r, p, c).record.treaties, k)
    ensures AfterCommand(r, p, c).result.Ok? && a in c.treaties
    ensures Accepts(p, a, AfterCommand(r, p, c).record.treaties[k], r.state.tick)
  {
    var start := CommandDeals(r, p, c);
    a := ListSigns(start, p, c.treaties, k);
  }

  lemma RequestSigns(r: Record, p: PlayerId, action: TreatyAction, k: nat)
    requires MessagesNumbered(r.messages) && TreatiesOk(r.treaties) && NoSelfTreaties(r.treaties)
    requires !SignedIn(r.treaties, k) && SignedIn(AfterTreatyCommand(r, p, action).record.treaties, k)
    ensures AfterTreatyCommand(r, p, action).result.Ok?
    ensures Accepts(p, action, AfterTreatyCommand(r, p, action).record.treaties[k], r.state.tick)
  {
    OneTreaty(r, p, action);
    var a := ListSigns(r, p, [action], k);
  }

  lemma BreaksSignNothing(treaties: seq<Treaty>, attacks: seq<Attack>, tick: nat, k: nat)
    ensures SignedIn(AllBrokenBy(treaties, attacks, tick), k) <==> SignedIn(treaties, k)
  {
    if k < |treaties| { var j := FirstAttackBreaks(treaties[k], attacks, tick); }
  }

  lemma TickSignsNothing(r: Record, m: MapDefinition, k: nat)
    ensures SignedIn(Advanced(r, m).treaties, k) <==> SignedIn(r.treaties, k)
  {
    BreaksSignNothing(r.treaties, AttacksOf(r.state, QueuedBatch(r.state, m, DueQueue(r)).movements), r.state.tick, k);
  }

  /** Only a successful acceptance puts a treaty in force. */
  lemma EventSigns(r: Record, m: MapDefinition, e: RecordEvent, k: nat) returns (p: PlayerId, a: TreatyAction)
    requires MessagesNumbered(r.messages) && TreatiesOk(r.treaties) && NoSelfTreaties(r.treaties)
    requires !SignedIn(r.treaties, k) && SignedIn(NextRecord(r, m, e).treaties, k)
    ensures Took(r, e, p, a) && Accepts(p, a, NextRecord(r, m, e).treaties[k], r.state.tick)
  {
    if e.TickDue? { TickSignsNothing(r, m, k); }
    match e
    case Commanded(q, c) =>
      p := q;
      a := CommandSigns(r, q, c, k);
    case Treated(q, action) =>
      p, a := q, action;
      RequestSigns(r, q, action, k);
    case _ =>
  }

  lemma AcceptsStill(p: PlayerId, a: TreatyAction, before: seq<Treaty>, after: seq<Treaty>, k: nat, tick: nat)
    requires SignedIn(before, k) && Evolves(before, after) && Accepts(p, a, before[k], tick)
    ensures SignedIn(after, k) && Accepts(p, a, after[k], tick)
  {
    assert Ages(before[k], after[k]);
  }

  /** From the point where a treaty is first in force, the run shows who put it in force, and later events never blur that. */
  lemma {:induction false} SigningFound(m: MapDefinition, records: seq<Record>, events: seq<RecordEvent>, i: nat, k: nat, threshold: nat)
    returns (e: nat, p: PlayerId, a: TreatyAction)
    requires IsRecordRun(m, records, events) && i < |records| && RecordInv(records[0], m, threshold)
    requires records[0].treaties == [] && SignedIn(records[i].treaties, k)
    ensures e < i && Took(records[e], events[e], p, a) && Accepts(p, a, records[i].treaties[k], records[e].state.tick)
    ensures !SignedIn(records[e].treaties, k) && SignedIn(records[e + 1].treaties, k)
  {
    RecordRunKeepsInv(m, records, events, i - 1, threshold);
    if SignedIn(records[i - 1].treaties, k) {
      e, p, a := SigningFound(m, records, events, i - 1, k, threshold);
      RecordRunContinues(m, records, events, i - 1, i, threshold);
      AcceptsStill(p, a, records[i - 1].treaties, records[i].treaties, k, records[e].state.tick);
    } else {
      e := i - 1;
      p, a := EventSigns(records[e], m, events[e], k);
    }
  }

  /**
   * In every run of requests and ticks, a treaty that is or was in force came into force at an event of that very run: a
   * successful request of the player of the pair who had not proposed it, holding its acceptance, at the signing tick.
   */
  lemma RecordTreatiesSigned(m: MapDefinition, records: seq<Record>, events: seq<RecordEvent>, i: nat, k: nat, threshold: nat)
    returns (e: nat, p: PlayerId, a: TreatyAction)
    requires IsRecordRun(m, records, events) && i < |records| && RecordInv(records[0], m, threshold) && records[0].treaties == []
    requires k < |records[i].treaties| && (records[i].treaties[k].status.Active? || records[i].treaties[k].signedTick.Some?)
    ensures e < i && Took(records[e], events[e], p, a) && Accepts(p, a, records[i].treaties[k], records[e].state.tick)
    ensures !SignedIn(records[e].treaties, k) && SignedIn(records[e + 1].treaties, k)
  {
    RecordRunKeepsInv(m, records, events, i, threshold);
    ActiveIsSigned(records[i].treaties, k);
    e, p, a := SigningFound(m, records, events, i, k, threshold);
  }

  lemma ActiveIsSigned(treaties: seq<Treaty>, k: nat)
    requires TreatiesOk(treaties) && k < |treaties|
    ensures treaties[k].status.Active? ==> SignedIn(treaties, k)
  {
    assert TreatyOk(treaties[k]);
  }

  // ---- the order of submissions ----

  /** Advancing gives the same match state however different players' submissions were interleaved in the queue. */
  lemma AdvanceIgnoresInterleaving(r: Record, t: Record, m: MapDefinition)
    requires r.state == t.state
    requires forall p :: Filter(From(p), r.submissions) == Filter(From(p), t.submissions)
    ensures Advanced(r, m).state == Advanced(t, m).state
  {
    var due := DueAt(r.state.tick);
    forall p ensures Filter(From(p), DueQueue(r)) == Filter(From(p), DueQueue(t)) {
      FiltersCommute(due, From(p), r.submissions);
      FiltersCommute(due, From(p), t.submissions);
    }
    QueueOrderIrrelevant(r.state, m, DueQueue(r), DueQueue(t));
  }

  lemma FiltersCommute<T>(f: T -> bool, g: T -> bool, xs: seq<T>)
    ensures Filter(g, Filter(f, xs)) == Filter(f, Filter(g, xs))
  {
    var both := (x: T) => f(x) && g(x);
    FilterFilter(f, g, both, xs);
    FilterFilter(g, f, both, xs);
  }
}
