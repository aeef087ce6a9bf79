/** What messages, treaty and alliance actions, whole commands and ticks make of a match record. */
module RecordSteps {
  import opened Collections
  import opened Domain
  import opened Submissions
  import opened RunInvariant
  import opened VictorySync
  import opened RecordTypes
  import opened AllianceRules
  import opened TreatyRules
  import opened HostileBreaks

  // ---- world messages ----

  const SYSTEM := "system"

  function PostedOne(messages: seq<Message>, tick: nat, content: string): seq<Message> {
    messages + [Message(|messages|, World, SYSTEM, None, tick, content)]
  }

  function Posted(messages: seq<Message>, tick: nat, news: seq<string>): seq<Message> {
    if news == [] then messages
    else PostedOne(Posted(messages, tick, news[..|news| - 1]), tick, news[|news| - 1])
  }

  lemma {:induction false} PostedMore(messages: seq<Message>, tick: nat, news: seq<string>, more: seq<string>)
    ensures Posted(Posted(messages, tick, news), tick, more) == Posted(messages, tick, news + more)
  {
    if more == [] {
      assert news + more == news;
    } else {
      assert (news + more)[..|news + more| - 1] == news + more[..|more| - 1];
      PostedMore(messages, tick, news, more[..|more| - 1]);
    }
  }

  /** Message ids are positions. */
  ghost predicate MessagesNumbered(messages: seq<Message>) {
    forall i :: 0 <= i < |messages| ==> messages[i].id == i
  }

  lemma {:induction false} PostedKeepsNumbers(messages: seq<Message>, tick: nat, news: seq<string>)
    requires MessagesNumbered(messages)
    ensures MessagesNumbered(Posted(messages, tick, news)) && messages <= Posted(messages, tick, news)
    ensures |Posted(messages, tick, news)| == |messages| + |news|
  {
    if news != [] { PostedKeepsNumbers(messages, tick, news[..|news| - 1]); }
  }

  // ---- commands ----

  datatype CommandChannel = ToWorld | ToPlayer | ToGroup
  datatype CommandMessage = CommandMessage(channel: CommandChannel, recipient: Option<PlayerId>, chatId: Option<string>, content: string)

  datatype Command = Command(
    tick: nat,
    orders: OrderBatch,
    messages: seq<CommandMessage>,
    treaties: seq<TreatyAction>,
    alliance: Option<AllianceAction>)

  datatype Receipt = Plain(message: Message) | InChat(chatMessage: ChatMessage)

  datatype Response = Response(
    submissionIndex: Option<nat>,
    messages: seq<Receipt>,
    treaties: seq<Treaty>,
    alliance: Option<Option<League>>)

  predicate HasOrders(c: Command) {
    c.orders.movements != [] || c.orders.recruitment != [] || c.orders.upgrades != [] || c.orders.transfers != []
  }

  /** A record as far as a step got, and the outcome: on a refusal the record keeps what came before it. */
  datatype Progress<+T> = Progress(record: Record, result: Result<T, CommandError>)

  function FindChat(chats: seq<GroupChat>, id: string): Option<nat> {
    if chats == [] then None
    else if chats[0].id == id then Some(0)
    else match FindChat(chats[1..], id)
      case None => None
      case Some(i) => Some(i + 1)
  }

  lemma {:induction false} FindChatFinds(chats: seq<GroupChat>, id: string)
    ensures match FindChat(chats, id)
      case Some(i) => i < |chats| && chats[i].id == id && forall k :: 0 <= k < i ==> chats[k].id != id
      case None => forall k :: 0 <= k < |chats| ==> chats[k].id != id
  {
    if chats != [] && chats[0].id != id {
      FindChatFinds(chats[1..], id);
      assert forall k :: 1 <= k < |chats| ==> chats[k] == chats[1..][k - 1];
    }
  }

  /** Only a member sees a chat; a missing chat looks the same as a hidden one. */
  ghost predicate SeesChat(chats: seq<GroupChat>, id: string, p: PlayerId) {
    FindChatFinds(chats, id);
    FindChat(chats, id).Some? && p in chats[FindChat(chats, id).value].members
  }

  /** Some chat has the id, and the first that has it counts the player among its members. */
  ghost predicate MemberOfFirst(chats: seq<GroupChat>, id: string, p: PlayerId) {
    exists i :: 0 <= i < |chats| && chats[i].id == id && p in chats[i].members && forall k :: 0 <= k < i ==> chats[k].id != id
  }

  lemma MemberSees(chats: seq<GroupChat>, id: string, p: PlayerId)
    ensures SeesChat(chats, id, p) <==> MemberOfFirst(chats, id, p)
  {
    FindChatFinds(chats, id);
  }

  ghost function MessageError(r: Record, p: PlayerId, c: CommandMessage): Option<CommandError> {
    match c.channel
    case ToGroup =>
      if c.recipient.Some? || c.chatId == None then Some(UnsupportedRecipient)
      else if !SeesChat(r.chats, c.chatId.value, p) then Some(GroupChatNotVisible)
      else None
    case ToWorld => if c.recipient.Some? then Some(UnsupportedRecipient) else None
    case ToPlayer =>
      if c.chatId.Some? || c.recipient == None || c.recipient.value !in r.state.players then Some(UnsupportedRecipient)
      else None
  }

  function ChatPost(chat: GroupChat, p: PlayerId, tick: nat, content: string): ChatMessage {
    ChatMessage(|chat.messages|, chat.id, p, tick, content)
  }

  ghost function AfterMessage(r: Record, p: PlayerId, tick: nat, c: CommandMessage): Progress<Receipt> {
    match MessageError(r, p, c)
    case Some(error) => Progress(r, Err(error))
    case None =>
      if c.channel.ToGroup? then (
        FindChatFinds(r.chats, c.chatId.value);
        var i := FindChat(r.chats, c.chatId.value).value;
        var post := ChatPost(r.chats[i], p, tick, c.content);
        Progress(r.(chats := r.chats[i := r.chats[i].(messages := r.chats[i].messages + [post])]), Ok(InChat(post))))
      else
        var post := Message(|r.messages|, if c.channel.ToWorld? then World else Direct, p, c.recipient, tick, c.content);
        Progress(r.(messages := r.messages + [post]), Ok(Plain(post)))
  }

  ghost function AfterTreaty(r: Record, p: PlayerId, action: TreatyAction): Progress<Treaty> {
    match TreatyOutcome(r.treaties, r.state.tick, p, action)
    case Err(error) => Progress(r, Err(error))
    case Ok(change) =>
      var news := match change.news { case None => [] case Some(text) => [text] };
      Progress(r.(treaties := change.treaties, messages := Posted(r.messages, r.state.tick, news)), Ok(change.reported))
  }

  function TreatyCommandError(r: Record, p: PlayerId, action: TreatyAction): Option<CommandError> {
    if action.counterparty !in r.state.players then Some(TreatyPlayerNotFound)
    else if p == action.counterparty then Some(SelfTargetedTreaty)
    else None
  }

  ghost function AfterTreatyCommand(r: Record, p: PlayerId, action: TreatyAction): Progress<Treaty> {
    match TreatyCommandError(r, p, action)
    case Some(error) => Progress(r, Err(error))
    case None => AfterTreaty(r, p, action)
  }

  ghost function AfterAlliance(r: Record, p: PlayerId, action: AllianceAction): Progress<Option<League>> {
    match AllianceOutcome(r.state.players, r.leagues, r.state.tick, p, action)
    case Err(error) => Progress(r, Err(error))
    case Ok(change) =>
      Progress(r.(state := Synced(r.state.(players := change.players)), leagues := change.leagues), Ok(change.reported))
  }

  // ---- lists of steps: stop at the first refusal ----

  ghost function AfterMessages(r: Record, p: PlayerId, tick: nat, messages: seq<CommandMessage>): Progress<seq<Receipt>> {
    if messages == [] then Progress(r, Ok([])) else
      var earlier := AfterMessages(r, p, tick, messages[..|messages| - 1]);
      if earlier.result.Err? then earlier
      else var last := AfterMessage(earlier.record, p, tick, messages[|messages| - 1]);
        match last.result
        case Err(error) => Progress(last.record, Err(error))
        case Ok(receipt) => Progress(last.record, Ok(earlier.result.value + [receipt]))
  }

  lemma {:induction false} MessagesStop(r: Record, p: PlayerId, tick: nat, messages: seq<CommandMessage>, i: nat)
    requires i <= |messages| && AfterMessages(r, p, tick, messages[..i]).result.Err?
    ensures AfterMessages(r, p, tick, messages) == AfterMessages(r, p, tick, messages[..i])
    decreases |messages|
  {
    if i == |messages| {
      assert messages[..i] == messages;
    } else {
      assert messages[..|messages| - 1][..i] == messages[..i];
      MessagesStop(r, p, tick, messages[..|messages| - 1], i);
    }
  }

  ghost function AfterTreaties(r: Record, p: PlayerId, actions: seq<TreatyAction>): Progress<seq<Treaty>> {
    if actions == [] then Progress(r, Ok([])) else
      var earlier := AfterTreaties(r, p, actions[..|actions| - 1]);
      if earlier.result.Err? then earlier
      else var last := AfterTreatyCommand(earlier.record, p, actions[|actions| - 1]);
        match last.result
        case Err(error) => Progress(last.record, Err(error))
        case Ok(treaty) => Progress(last.record, Ok(earlier.result.value + [treaty]))
  }

  lemma {:induction false} TreatiesStop(r: Record, p: PlayerId, actions: seq<TreatyAction>, i: nat)
    requires i <= |actions| && AfterTreaties(r, p, actions[..i]).result.Err?
    ensures AfterTreaties(r, p, actions) == AfterTreaties(r, p, actions[..i])
    decreases |actions|
  {
    if i == |actions| {
      assert actions[..i] == actions;
    } else {
      assert actions[..|actions| - 1][..i] == actions[..i];
      TreatiesStop(r, p, actions[..|actions| - 1], i);
    }
  }

  function WithSubmission(r: Record, p: PlayerId, c: Command): Record {
    if HasOrders(c) then r.(submissions := r.submissions + [OrderEnvelope(r.matchId, p, c.tick, c.orders)]) else r
  }

  /** Every step of a command in turn, on the record itself: a refused step leaves the earlier ones in place. */
  ghost function AfterMutations(r: Record, p: PlayerId, c: Command): Progress<Response> {
    var index := if HasOrders(c) then Some(|r.submissions|) else None;
    var said := AfterMessages(WithSubmission(r, p, c), p, c.tick, c.messages);
    match said.result
    case Err(error) => Progress(said.record, Err(error))
    case Ok(receipts) =>
      var dealt := AfterTreaties(said.record, p, c.treaties);
      match dealt.result
      case Err(error) => Progress(dealt.record, Err(error))
      case Ok(treaties) =>
        match c.alliance
        case None => Progress(dealt.record, Ok(Response(index, receipts, treaties, None)))
        case Some(action) =>
          var allied := AfterAlliance(dealt.record, p, action);
          match allied.result
          case Err(error) => Progress(allied.record, Err(error))
          case Ok(reported) => Progress(allied.record, Ok(Response(index, receipts, treaties, Some(reported))))
  }

  /** A command takes effect as a whole or not at all. */
  ghost function AfterCommand(r: Record, p: PlayerId, c: Command): Progress<Response> {
    var done := AfterMutations(r, p, c);
    if done.result.Ok? then done else Progress(r, done.result)
  }

  /** Run straight on the record, a command refused half-way would leave its first half behind. */
  lemma MutationsAloneLeaveTraces(r: Record, p: PlayerId)
    requires p in r.state.players && r.state.players[p].allianceId == None
    ensures var c := Command(0, NO_ORDERS, [CommandMessage(ToWorld, None, None, "hail")], [], Some(Leave));
      AfterMutations(r, p, c).result == Err(PlayerNotInAlliance) && AfterMutations(r, p, c).record != r
      && AfterCommand(r, p, c).record == r
  {
    var hail := CommandMessage(ToWorld, None, None, "hail");
    var c := Command(0, NO_ORDERS, [hail], [], Some(Leave));
    HailPosted(r, p, hail);
  }

  lemma HailPosted(r: Record, p: PlayerId, hail: CommandMessage)
    requires hail.channel == ToWorld && hail.recipient == None
    ensures var said := AfterMessages(r, p, 0, [hail]);
      said.result.Ok? && said.record.state == r.state && said.record.messages != r.messages
  {
    var one := [hail];
    assert one[..|one| - 1] == [];
    assert AfterMessages(r, p, 0, []) == Progress(r, Ok([]));
  }

  // ---- submissions by themselves ----

  function Retained(p: PlayerId, tick: nat): OrderEnvelope -> bool {
    (e: OrderEnvelope) => e.playerId != p || e.tick != tick
  }

  /** A player's submissions for one tick give way to a new one. */
  function AfterOverride(r: Record, p: PlayerId, tick: nat, e: OrderEnvelope): Record {
    r.(submissions := Filter(Retained(p, tick), r.submissions) + [e])
  }

  // ---- a tick ----

  function DueAt(tick: nat): OrderEnvelope -> bool {
    (e: OrderEnvelope) => e.tick == tick
  }

  function NotDueAt(tick: nat): OrderEnvelope -> bool {
    (e: OrderEnvelope) => e.tick != tick
  }

  ghost function DueQueue(r: Record): seq<OrderEnvelope> {
    Filter(DueAt(r.state.tick), r.submissions)
  }

  /** Before resolution: due submissions leave the queue, hostile movements break treaties, the world is told. */
  ghost function Prepared(r: Record, m: MapDefinition): Record {
    var movements := QueuedBatch(r.state, m, DueQueue(r)).movements;
    r.(submissions := Filter(NotDueAt(r.state.tick), r.submissions),
       treaties := Reconciled(r.treaties, r.state, movements),
       messages := Posted(r.messages, r.state.tick, BreakNews(r.treaties, AttacksOf(r.state, movements), r.state.tick)))
  }

  ghost function Advanced(r: Record, m: MapDefinition): Record {
    Prepared(r, m).(state := Synced(Tick(r.state, m, DueQueue(r))))
  }
}
