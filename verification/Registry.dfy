/** A match record that commands and ticks update in place. */
module Registry {
  import opened Collections
  import opened Ordering
  import opened Naming
  import opened Domain
  import opened Phases
  import opened ResourceSteps
  import opened Invariants
  import opened Submissions
  import opened OrderIndependence
  import Validation
  import opened Resolver
  import opened RunInvariant
  import opened VictorySync
  import opened RecordTypes
  import opened AllianceRules
  import opened TreatyRules
  import opened HostileBreaks
  import opened RecordSteps

  class MatchRecord {
    const matchId: string
    var state: MatchState
    var submissions: seq<OrderEnvelope>
    var messages: seq<Message>
    var chats: seq<GroupChat>
    var treaties: seq<Treaty>
    var leagues: seq<League>

    ghost function View(): Record
      reads this, state
    {
      Record(matchId, state.View(), submissions, messages, chats, treaties, leagues)
    }

    constructor DeepCopy(original: MatchRecord)
      ensures View() == original.View() && fresh(state)
    {
      matchId, submissions, messages := original.matchId, original.submissions, original.messages;
      chats, treaties, leagues := original.chats, original.treaties, original.leagues;
      var copy := new MatchState.DeepCopy(original.state);
      state := copy;
    }

    // ---- messages ----

    method AppendMessage(channel: Channel, sender: string, recipient: Option<PlayerId>, tick: nat, content: string) returns (stored: Message)
      modifies `messages
      ensures stored == Message(|old(messages)|, channel, sender, recipient, tick, content)
      ensures messages == old(messages) + [stored]
    {
      stored := Message(|messages|, channel, sender, recipient, tick, content);
      messages := messages + [stored];
    }

    method RecordWorldMessage(tick: nat, content: string)
      modifies `messages
      ensures messages == PostedOne(old(messages), tick, content)
    {
      var stored := AppendMessage(World, SYSTEM, None, tick, content);
    }

    method RequireGroupChatMember(id: string, p: PlayerId) returns (found: Option<nat>)
      ensures found == if SeesChat(chats, id, p) then FindChat(chats, id) else None
    {
      FindChatFinds(chats, id);
      found := FindChat(chats, id);
      if found.Some? && p !in chats[found.value].members {
        found := None;
      }
    }

    method ValidateCommandMessage(p: PlayerId, c: CommandMessage) returns (error: Option<CommandError>)
      ensures error == MessageError(View(), p, c)
      ensures c.channel.ToWorld? ==> (error == None <==> c.recipient == None)
      ensures c.channel.ToPlayer? ==> (error == None <==> c.chatId == None && c.recipient.Some? && c.recipient.value in state.players)
      ensures c.channel.ToGroup? ==> (error == None <==> c.recipient == None && c.chatId.Some? && MemberOfFirst(chats, c.chatId.value, p))
      ensures error == Some(GroupChatNotVisible) <==>
        c.channel.ToGroup? && c.recipient == None && c.chatId.Some? && !MemberOfFirst(chats, c.chatId.value, p)
      ensures error == None || error == Some(UnsupportedRecipient) || error == Some(GroupChatNotVisible)
    {
      if c.channel.ToGroup? {
        if c.recipient.Some? || c.chatId == None {
          return Some(UnsupportedRecipient);
        }
        var chat := RequireGroupChatMember(c.chatId.value, p);
        MemberSees(chats, c.chatId.value, p);
        return if chat == None then Some(GroupChatNotVisible) else None;
      }
      if c.channel.ToWorld? {
        return if c.recipient.Some? then Some(UnsupportedRecipient) else None;
      }
      if c.chatId.Some? || c.recipient == None || c.recipient.value !in state.players {
        return Some(UnsupportedRecipient);
      }
      error := None;
    }

    method RecordGroupChatMessage(i: nat, p: PlayerId, tick: nat, content: string) returns (post: ChatMessage)
      requires i < |chats|
      modifies `chats
      ensures post == ChatPost(old(chats)[i], p, tick, content)
      ensures chats == old(chats)[i := old(chats)[i].(messages := old(chats)[i].messages + [post])]
    {
      post := ChatMessage(|chats[i].messages|, chats[i].id, p, tick, content);
      chats := chats[i := chats[i].(messages := chats[i].messages + [post])];
    }

    method PostMessage(p: PlayerId, tick: nat, c: CommandMessage) returns (result: Result<Receipt, CommandError>)
      modifies `messages, `chats
      ensures Progress(View(), result) == AfterMessage(old(View()), p, tick, c)
    {
      var error := ValidateCommandMessage(p, c);
      if error.Some? {
        return Err(error.value);
      }
      if c.channel.ToGroup? {
        FindChatFinds(chats, c.chatId.value);
        var i := RequireGroupChatMember(c.chatId.value, p);
        var post := RecordGroupChatMessage(i.value, p, tick, c.content);
        return Ok(InChat(post));
      }
      var stored := AppendMessage(if c.channel.ToWorld? then World else Direct, p, c.recipient, tick, c.content);
      result := Ok(Plain(stored));
    }

    // ---- treaties ----

    method ApplyTreatyAction(p: PlayerId, action: TreatyAction) returns (result: Result<Treaty, CommandError>)
      modifies `treaties, `messages
      ensures Progress(View(), result) == AfterTreaty(old(View()), p, action)
    {
      var pair := PairOf(p, action.counterparty);
      var latest := FindLatestTreaty(treaties, pair, action.kind);
      LatestIsLast(treaties, pair, action.kind);
      PostedNone(messages, state.tick);
      if action.verb.Propose? {
        if latest.Some? && !Ended(treaties[latest.value]) {
          return Err(UnsupportedTreatyTransition);
        }
        var stored := Treaty(|treaties|, pair.0, pair.1, action.kind, Proposed, p, state.tick, None, None, None);
        treaties := treaties + [stored];
        return Ok(stored);
      }
      if latest == None {
        return Err(if action.verb.Accept? then UnsupportedTreatyTransition else TreatyNotFound);
      }
      var t := treaties[latest.value];
      if action.verb.Accept? {
        if !t.status.Proposed? || t.proposedBy == p {
          return Err(UnsupportedTreatyTransition);
        }
        t := t.(status := Active, signedTick := Some(state.tick));
        treaties := treaties[latest.value := t];
        RecordWorldMessage(state.tick, SignedNews(t));
        PostedSingle(old(messages), state.tick, SignedNews(t));
        return Ok(t);
      }
      if !Open(t) {
        return Err(UnsupportedTreatyTransition);
      }
      t := t.(status := Withdrawn, withdrawnBy := Some(p), withdrawnTick := Some(state.tick));
      treaties := treaties[latest.value := t];
      RecordWorldMessage(state.tick, WithdrawnNews(p, action.counterparty, action.kind));
      PostedSingle(old(messages), state.tick, WithdrawnNews(p, action.counterparty, action.kind));
      result := Ok(t);
    }

    /** Breaks the treaty at one position if it is in force between the two players, and says so. */
    method BreakOne(i: nat, h: Attack, tick: nat)
      requires i < |treaties|
      modifies `treaties, `messages
      ensures treaties == old(treaties)[i := BrokenOnce(old(treaties)[i], h, tick)]
      ensures messages == match BreakNotice(h)(old(treaties)[i])
        case None => old(messages)
        case Some(text) => PostedOne(old(messages), tick, text)
    {
      var pair := PairOf(h.attacker, h.defender);
      var status := if h.attacker == pair.0 then BrokenByA else BrokenByB;
      var t := treaties[i];
      if Unites(t, pair) && t.status.Active? {
        treaties := treaties[i := t.(status := status, withdrawnBy := Some(h.attacker), withdrawnTick := Some(tick))];
        RecordWorldMessage(tick, BrokenText(h, t.kind));
      }
    }

    method BreakActiveTreatiesBetweenPlayers(attacker: PlayerId, defender: PlayerId, tick: nat)
      modifies `treaties, `messages
      ensures treaties == AllBrokenOnce(old(treaties), Attack(attacker, defender), tick)
      ensures messages == Posted(old(messages), tick, FilterMap(BreakNotice(Attack(attacker, defender)), old(treaties)))
    {
      var h := Attack(attacker, defender);
      ghost var before := treaties;
      PostedNone(messages, tick);
      var i := 0;
      while i < |treaties|
        invariant 0 <= i <= |treaties| == |before|
        invariant forall k :: 0 <= k < |before| ==> treaties[k] == if k < i then BrokenOnce(before[k], h, tick) else before[k]
        invariant messages == Posted(old(messages), tick, FilterMap(BreakNotice(h), before[..i]))
      {
        BreakOne(i, h, tick);
        NewsGrow(old(messages), before, h, tick, i);
        i := i + 1;
      }
      assert before[..i] == before;
    }

    method BreakForAttack(h: Attack, tick: nat, ghost before: seq<Treaty>, ghost said: seq<Message>, ghost attacks: seq<Attack>)
      requires ReconciledSoFar(before, said, attacks, tick)
      modifies `treaties, `messages
      ensures ReconciledSoFar(before, said, attacks + [h], tick)
    {
      BreakActiveTreatiesBetweenPlayers(h.attacker, h.defender, tick);
      ghost var more := attacks + [h];
      assert more[..|more| - 1] == attacks;
      PostedMore(said, tick, BreakNews(before, attacks, tick), FilterMap(BreakNotice(h), AllBrokenBy(before, attacks, tick)));
      assert AllBrokenOnce(AllBrokenBy(before, attacks, tick), h, tick) == AllBrokenBy(before, more, tick);
    }

    ghost predicate ReconciledSoFar(before: seq<Treaty>, said: seq<Message>, attacks: seq<Attack>, tick: nat)
      reads this
    {
      treaties == AllBrokenBy(before, attacks, tick) && messages == Posted(said, tick, BreakNews(before, attacks, tick))
    }

    method BreakForOrder(attacker: PlayerId, defenders: set<PlayerId>, tick: nat,
                         ghost before: seq<Treaty>, ghost said: seq<Message>, ghost attacks: seq<Attack>)
      requires ReconciledSoFar(before, said, attacks, tick)
      modifies `treaties, `messages
      ensures ReconciledSoFar(before, said, attacks + FilterMap(AttackBy(attacker), Listing(defenders)), tick)
    {
      var listed := ListIds(defenders);
      var ids := SortIds(listed);
      ghost var done := attacks;
      var j := 0;
      while j < |ids|
        invariant 0 <= j <= |ids| && done == attacks + FilterMap(AttackBy(attacker), ids[..j])
        invariant ReconciledSoFar(before, said, done, tick)
      {
        FilterMapStep(AttackBy(attacker), ids, j);
        BreakForAttack(Attack(attacker, ids[j]), tick, before, said, done);
        done := done + [Attack(attacker, ids[j])];
        j := j + 1;
      }
      assert ids[..j] == ids;
    }

    method BreakForMovement(pre: Snapshot, o: MovementOrder, armiesById: map<ArmyId, Army>, occupants: map<CityId, set<PlayerId>>,
                            ghost before: seq<Treaty>, ghost said: seq<Message>, ghost attacks: seq<Attack>)
      requires ReconciledSoFar(before, said, attacks, pre.tick)
      requires Validation.FindArmy(pre.armies, o.armyId) == if o.armyId in armiesById then Some(armiesById[o.armyId]) else None
      requires OccupantsOf(pre, o.destination) == OwnersAt(occupants, o.destination)
      modifies `treaties, `messages
      ensures ReconciledSoFar(before, said, attacks + AttacksByOrder(pre, o), pre.tick)
    {
      if o.armyId !in armiesById || o.destination !in pre.cities {
        assert attacks + AttacksByOrder(pre, o) == attacks;
        return;
      }
      var attacker, city := armiesById[o.armyId].owner, pre.cities[o.destination];
      var defenders := if o.destination in occupants then occupants[o.destination] else {};
      if city.owner.Some? {
        defenders := defenders + {city.owner.value};
      }
      defenders := defenders - {attacker};
      assert defenders == DefendersOf(pre, attacker, o.destination);
      BreakForOrder(attacker, defenders, pre.tick, before, said, attacks);
    }

    method ReconcileHostileTreatyBreaks(pre: Snapshot, movements: seq<MovementOrder>)
      modifies `treaties, `messages
      ensures treaties == Reconciled(old(treaties), pre, movements)
      ensures messages == Posted(old(messages), pre.tick, BreakNews(old(treaties), AttacksOf(pre, movements), pre.tick))
    {
      var armiesById := Validation.ArmiesById(pre.armies);
      var occupants := IndexOccupants(pre);
      ghost var before, said, attacks := treaties, messages, [];
      assert AllBrokenBy(before, [], pre.tick) == before;
      PostedNone(messages, pre.tick);
      var i := 0;
      while i < |movements|
        invariant 0 <= i <= |movements| && attacks == AttacksOf(pre, movements[..i])
        invariant ReconciledSoFar(before, said, attacks, pre.tick)
      {
        var o := movements[i];
        assert movements[..i + 1][..i] == movements[..i];
        BreakForMovement(pre, o, armiesById, occupants, before, said, attacks);
        attacks := attacks + AttacksByOrder(pre, o);
        i := i + 1;
      }
      assert movements[..i] == movements;
    }

    // ---- alliances ----

    method SyncState()
      modifies state
      ensures state.View() == Synced(old(state.View()))
    {
      var synced := SyncVictoryState(Snapshot(state.tick, state.cities, state.armies, state.players, state.victory));
      state.victory := synced.victory;
    }

    method SetAlliance(p: PlayerId, id: Option<string>)
      requires p in state.players
      modifies state
      ensures state.View() == old(state.View()).(players := WithAlliance(old(state.players), p, id))
    {
      state.players := state.players[p := state.players[p].(allianceId := id)];
    }

    method ApplyAllianceAction(p: PlayerId, action: AllianceAction) returns (result: Result<Option<League>, CommandError>)
      modifies `leagues, state
      ensures state == old(state) && Progress(View(), result) == AfterAlliance(old(View()), p, action)
    {
      if p !in state.players {
        return Err(UnknownPlayer);
      }
      match action
      case Create(name) => result := CreateAlliance(p, name);
      case Join(id) => result := JoinAlliance(p, id);
      case Leave => result := LeaveAlliance(p);
    }

    method CreateAlliance(p: PlayerId, name: Option<string>) returns (result: Result<Option<League>, CommandError>)
      requires p in state.players
      modifies `leagues, state
      ensures state == old(state) && Progress(View(), result) == AfterAlliance(old(View()), p, Create(name))
    {
      if state.players[p].allianceId.Some? {
        return Err(PlayerAlreadyInAlliance);
      }
      if name == None {
        return Err(AllianceNameRequired);
      }
      var id := NextAllianceName(leagues);
      var stored := League(id, name.value, p, state.tick, [Member(p, state.tick)]);
      leagues := leagues + [stored];
      SetAlliance(p, Some(id));
      SyncState();
      result := Ok(Some(Reported(stored)));
    }

    method JoinAlliance(p: PlayerId, id: Option<string>) returns (result: Result<Option<League>, CommandError>)
      requires p in state.players
      modifies `leagues, state
      ensures state == old(state) && Progress(View(), result) == AfterAlliance(old(View()), p, Join(id))
    {
      if state.players[p].allianceId.Some? {
        return Err(PlayerAlreadyInAlliance);
      }
      if id == None {
        return Err(AllianceIdRequired);
      }
      var found := FindAlliance(leagues, id.value);
      FindLeagueFinds(leagues, id.value);
      if found == None {
        return Err(AllianceNotFound);
      }
      var joined := leagues[found.value].(members := leagues[found.value].members + [Member(p, state.tick)]);
      leagues := leagues[found.value := joined];
      SetAlliance(p, Some(joined.id));
      SyncState();
      result := Ok(Some(Reported(joined)));
    }

    method LeaveAlliance(p: PlayerId) returns (result: Result<Option<League>, CommandError>)
      requires p in state.players
      modifies `leagues, state
      ensures state == old(state) && Progress(View(), result) == AfterAlliance(old(View()), p, Leave)
    {
      if state.players[p].allianceId == None {
        return Err(PlayerNotInAlliance);
      }
      var found := FindAlliance(leagues, state.players[p].allianceId.value);
      FindLeagueFinds(leagues, state.players[p].allianceId.value);
      if found == None {
        return Err(AllianceNotFound);
      }
      var left := leagues[found.value].(members := Filter(OtherMember(p), leagues[found.value].members));
      ghost var spec := Without(leagues[found.value], p);
      SetAlliance(p, None);
      if left.members == [] {
        leagues := Filter(OtherLeague(left.id), leagues);
        SyncState();
        return Ok(None);
      }
      if left.leader == p {
        var least := MinMember(left);
        left := left.(leader := least);
      }
      assert left == spec;
      leagues := leagues[found.value := left];
      SyncState();
      result := Ok(Some(Reported(left)));
    }

    // ---- commands ----

    method PostMessages(p: PlayerId, tick: nat, posts: seq<CommandMessage>) returns (result: Result<seq<Receipt>, CommandError>)
      modifies `messages, `chats
      ensures Progress(View(), result) == AfterMessages(old(View()), p, tick, posts)
    {
      var receipts: seq<Receipt> := [];
      ghost var start := View();
      var i := 0;
      while i < |posts|
        invariant 0 <= i <= |posts|
        invariant state == old(state) && unchanged(state) && unchanged(`submissions) && unchanged(`treaties) && unchanged(`leagues)
        invariant Progress(View(), Ok(receipts)) == AfterMessages(start, p, tick, posts[..i])
      {
        assert posts[..i + 1][..i] == posts[..i];
        var posted := PostMessage(p, tick, posts[i]);
        if posted.Err? {
          MessagesStop(start, p, tick, posts, i + 1);
          return Err(posted.error);
        }
        receipts := receipts + [posted.value];
        i := i + 1;
      }
      assert posts[..i] == posts;
      result := Ok(receipts);
    }

    method ValidateCommandTreaty(p: PlayerId, action: TreatyAction) returns (error: Option<CommandError>)
      ensures error == None <==> action.counterparty in state.players && action.counterparty != p
      ensures error.Some? ==> error.value == if action.counterparty in state.players then SelfTargetedTreaty else TreatyPlayerNotFound
    {
      if action.counterparty !in state.players {
        return Some(TreatyPlayerNotFound);
      }
      error := if p == action.counterparty then Some(SelfTargetedTreaty) else None;
    }

    method ApplyTreatyCommand(p: PlayerId, action: TreatyAction) returns (result: Result<Treaty, CommandError>)
      modifies `messages, `treaties
      ensures Progress(View(), result) == AfterTreatyCommand(old(View()), p, action)
    {
      var error := ValidateCommandTreaty(p, action);
      if error.Some? {
        return Err(error.value);
      }
      result := ApplyTreatyAction(p, action);
    }

    method ApplyTreatyCommands(p: PlayerId, actions: seq<TreatyAction>) returns (result: Result<seq<Treaty>, CommandError>)
      modifies `messages, `treaties
      ensures Progress(View(), result) == AfterTreaties(old(View()), p, actions)
    {
      var reported: seq<Treaty> := [];
      ghost var start := View();
      var i := 0;
      while i < |actions|
        invariant 0 <= i <= |actions|
        invariant state == old(state) && unchanged(state) && unchanged(`submissions) && unchanged(`chats) && unchanged(`leagues)
        invariant Progress(View(), Ok(reported)) == AfterTreaties(start, p, actions[..i])
      {
        assert actions[..i + 1][..i] == actions[..i];
        var applied := ApplyTreatyCommand(p, actions[i]);
        if applied.Err? {
          TreatiesStop(start, p, actions, i + 1);
          return Err(applied.error);
        }
        reported := reported + [applied.value];
        i := i + 1;
      }
      assert actions[..i] == actions;
      result := Ok(reported);
    }

    /** Runs a command's steps on this record; a refused step leaves the earlier ones in place. */
    method ApplyCommandEnvelopeMutations(p: PlayerId, c: Command) returns (result: Result<Response, CommandError>)
      modifies this, state
      ensures state == old(state) && Progress(View(), result) == AfterMutations(old(View()), p, c)
    {
      var index: Option<nat> := None;
      if HasOrders(c) {
        submissions := submissions + [OrderEnvelope(matchId, p, c.tick, c.orders)];
        index := Some(|submissions| - 1);
      }
      assert View() == WithSubmission(old(View()), p, c);
      var posted := PostMessages(p, c.tick, c.messages);
      if posted.Err? {
        return Err(posted.error);
      }
      var dealt := ApplyTreatyCommands(p, c.treaties);
      if dealt.Err? {
        return Err(dealt.error);
      }
      if c.alliance == None {
        return Ok(Response(index, posted.value, dealt.value, None));
      }
      var allied := ApplyAllianceAction(p, c.alliance.value);
      if allied.Err? {
        return Err(allied.error);
      }
      result := Ok(Response(index, posted.value, dealt.value, Some(allied.value)));
    }

    /** Tries the command on a deep copy first, so a refusal never touches this record; then it cannot be refused. */
    method ApplyCommandEnvelope(p: PlayerId, c: Command) returns (result: Result<Response, CommandError>)
      modifies this, state
      ensures state == old(state) && Progress(View(), result) == AfterCommand(old(View()), p, c)
      ensures result.Err? ==> View() == old(View()) && unchanged(this) && unchanged(state)
    {
      var scratch := new MatchRecord.DeepCopy(this);
      var tried := scratch.ApplyCommandEnvelopeMutations(p, c);
      if tried.Err? {
        return tried;
      }
      result := ApplyCommandEnvelopeMutations(p, c);
      assert result == tried && View() == scratch.View();
    }

    // ---- ticks ----

    /** Takes the due submissions out of the queue, validates them, and breaks the treaties they are hostile to. */
    method PrepareTick(m: MapDefinition) returns (orders: OrderBatch)
      modifies `submissions, `treaties, `messages
      ensures View() == Prepared(old(View()), m)
      ensures orders == QueuedBatch(state.View(), m, DueQueue(old(View())))
    {
      var pre := Snapshot(state.tick, state.cities, state.armies, state.players, state.victory);
      var due := Filter(DueAt(state.tick), submissions);
      submissions := Filter(NotDueAt(state.tick), submissions);
      orders := ValidateQueuedOrders(pre, m, due);
      ReconcileHostileTreatyBreaks(pre, orders.movements);
    }

    method ResolveState(orders: OrderBatch, m: MapDefinition, ghost queue: seq<OrderEnvelope>) returns (ok: bool)
      requires TickReady(state.View()) && orders == QueuedBatch(state.View(), m, queue)
      modifies `state
      ensures ok <==> IncomeStorable(old(state.View()))
      ensures if ok then fresh(state) && state.View() == Synced(Tick(old(state.View()), m, queue)) else state == old(state)
    {
      OnlyIncomeFails(state.View(), m, queue);
      var failure, next := ResolveTick(state, orders, m);
      ok := failure == None;
      if ok {
        TakeOver(next, state.tick + 1);
      }
    }

    /** A resolved state takes the old one's place, with its clock stepped and victory synced. */
    method TakeOver(next: MatchState, tick: nat)
      modifies `state, next
      ensures state == next && next.View() == Synced(old(next.View()).(tick := tick))
    {
      next.tick := tick;
      state := next;
      SyncState();
    }

    /** One tick: prepare, resolve a copy of the state, step the clock, sync. */
    method AdvanceMatchTick(m: MapDefinition) returns (ok: bool)
      requires TickReady(state.View())
      modifies this
      ensures ok <==> IncomeStorable(old(state.View()))
      ensures ok ==> fresh(state) && View() == Advanced(old(View()), m)
      ensures !ok ==> state == old(state) && View() == Prepared(old(View()), m)
    {
      ghost var before := View();
      var orders := PrepareTick(m);
      assert View().state == before.state;
      ok := ResolveState(orders, m, DueQueue(before));
    }

    /** Replaces a player's submissions for one tick; reports the new one's place and how many it superseded. */
    method ReplacePlayerSubmissions(p: PlayerId, tick: nat, e: OrderEnvelope) returns (index: nat, superseded: nat)
      modifies `submissions
      ensures View() == AfterOverride(old(View()), p, tick, e)
      ensures index == |submissions| - 1 && superseded == |old(submissions)| - |submissions| + 1
    {
      FilterNoLonger(Retained(p, tick), submissions);
      var retained := Filter(Retained(p, tick), submissions);
      superseded := |submissions| - |retained|;
      submissions := retained + [e];
      index := |submissions| - 1;
    }
  }

  lemma {:induction false} FilterNoLonger<T>(keep: T -> bool, xs: seq<T>)
    ensures |Filter(keep, xs)| <= |xs|
  {
    if xs != [] { FilterNoLonger(keep, xs[..|xs| - 1]); }
  }

  /** Finds the alliance under an id by walking the list. */
  method FindAlliance(leagues: seq<League>, id: string) returns (found: Option<nat>)
    ensures found == FindLeague(leagues, id)
  {
    FindLeagueFinds(leagues, id);
    var i := 0;
    while i < |leagues|
      invariant 0 <= i <= |leagues| && forall k :: 0 <= k < i ==> leagues[k].id != id
    {
      if leagues[i].id == id {
        return Some(i);
      }
      i := i + 1;
    }
    found := None;
  }

  method NextAllianceName(leagues: seq<League>) returns (id: string)
    ensures id == NextAllianceId(leagues)
  {
    var taken := set a | a in leagues :: a.id;
    forall x ensures x in taken <==> x in Elements(LeagueIds(leagues)) {
      LeagueIdsListed(leagues, x);
      if x in taken {
        var a :| a in leagues && a.id == x;
      }
    }
    assert taken == Elements(LeagueIds(leagues));
    id := NextFreeName(ALLIANCE_PREFIX, taken);
  }

  method MinMember(a: League) returns (least: PlayerId)
    requires a.members != []
    ensures least == LeastMember(a)
  {
    StringOrderIsTotal();
    least := a.members[0].playerId;
    var i := 1;
    while i < |a.members|
      invariant 1 <= i <= |a.members|
      invariant exists k :: 0 <= k < i && a.members[k].playerId == least
      invariant forall k :: 0 <= k < i ==> STRING_ORDER(least, a.members[k].playerId)
    {
      if !StrLe(least, a.members[i].playerId) {
        least := a.members[i].playerId;
      }
      i := i + 1;
    }
    LeastMemberListed(a);
    assert Lists(a, least);
    ghost var k :| 0 <= k < |a.members| && a.members[k].playerId == LeastMember(a);
    assert STRING_ORDER(least, LeastMember(a)) && STRING_ORDER(LeastMember(a), least);
  }

  /** The owners standing in each city. */
  method IndexOccupants(s: Snapshot) returns (occupants: map<CityId, set<PlayerId>>)
    ensures forall c :: OccupantsOf(s, c) == OwnersAt(occupants, c)
  {
    occupants := map[];
    var i := 0;
    while i < |s.armies|
      invariant 0 <= i <= |s.armies|
      invariant forall c, p :: p in OwnersAt(occupants, c) <==> StandsAmong(s.armies, i, c, p)
    {
      var a := s.armies[i];
      ghost var before := occupants;
      if a.location.Some? && a.destination == None {
        var c := a.location.value;
        occupants := occupants[c := (if c in occupants then occupants[c] else {}) + {a.owner}];
      }
      forall c, p ensures p in OwnersAt(occupants, c) <==> StandsAmong(s.armies, i + 1, c, p) {
        StandsMore(s.armies, i, c, p);
        assert p in OwnersAt(occupants, c) <==> p in OwnersAt(before, c) || Stands(a, c, p);
      }
      i := i + 1;
    }
    forall c ensures OccupantsOf(s, c) == OwnersAt(occupants, c) {
      forall p ensures p in OccupantsOf(s, c) <==> StandsAmong(s.armies, i, c, p) { }
    }
  }

  ghost function OwnersAt(occupants: map<CityId, set<PlayerId>>, c: CityId): set<PlayerId> {
    if c in occupants then occupants[c] else {}
  }

  lemma StandsMore(armies: seq<Army>, i: nat, c: CityId, p: PlayerId)
    requires i < |armies|
    ensures StandsAmong(armies, i + 1, c, p) <==> StandsAmong(armies, i, c, p) || Stands(armies[i], c, p)
  {
  }

  ghost predicate Stands(a: Army, c: CityId, p: PlayerId) {
    a.location == Some(c) && a.destination == None && a.owner == p
  }

  ghost predicate StandsAmong(armies: seq<Army>, i: nat, c: CityId, p: PlayerId)
    requires i <= |armies|
  {
    exists k :: 0 <= k < i && Stands(armies[k], c, p)
  }

  lemma NewsGrow(said: seq<Message>, treaties: seq<Treaty>, h: Attack, tick: nat, i: nat)
    requires i < |treaties|
    ensures Posted(said, tick, FilterMap(BreakNotice(h), treaties[..i + 1])) ==
      var earlier := Posted(said, tick, FilterMap(BreakNotice(h), treaties[..i]));
      match BreakNotice(h)(treaties[i]) { case None => earlier case Some(text) => PostedOne(earlier, tick, text) }
  {
    var news := FilterMap(BreakNotice(h), treaties[..i]);
    FilterMapStep(BreakNotice(h), treaties, i);
    match BreakNotice(h)(treaties[i])
    case None => assert news + [] == news;
    case Some(text) =>
      PostedMore(said, tick, news, [text]);
      PostedSingle(Posted(said, tick, news), tick, text);
  }

  lemma PostedNone(messages: seq<Message>, tick: nat)
    ensures Posted(messages, tick, []) == messages
  {
  }

  lemma PostedSingle(messages: seq<Message>, tick: nat, text: string)
    ensures Posted(messages, tick, [text]) == PostedOne(messages, tick, text)
  {
    var one := [text];
    assert one[..|one| - 1] == [];
    PostedNone(messages, tick);
  }
}
