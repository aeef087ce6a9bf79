/** What a command leaves on the record, and which submissions a tick takes from the queue. */
module CommandLaws {
  import opened Collections
  import opened Domain
  import opened RecordTypes
  import opened TreatyRules
  import opened RecordSteps
  import opened Submissions
  import opened Validation

  // ---- orders ----

  lemma {:induction false} MessagesQueueNothing(r: Record, p: PlayerId, tick: nat, posts: seq<CommandMessage>)
    ensures AfterMessages(r, p, tick, posts).record.submissions == r.submissions
  {
    if posts != [] { MessagesQueueNothing(r, p, tick, posts[..|posts| - 1]); }
  }

  lemma {:induction false} TreatiesQueueNothing(r: Record, p: PlayerId, actions: seq<TreatyAction>)
    ensures AfterTreaties(r, p, actions).record.submissions == r.submissions
  {
    if actions != [] { TreatiesQueueNothing(r, p, actions[..|actions| - 1]); }
  }

  /** A command that succeeds queues its orders, of whatever kind, behind all others, and one without orders queues nothing. */
  lemma CommandQueuesItsOrders(r: Record, p: PlayerId, c: Command)
    requires AfterCommand(r, p, c).result.Ok?
    ensures c.orders != OrderBatch([], [], [], []) ==>
      AfterCommand(r, p, c).record.submissions == r.submissions + [OrderEnvelope(r.matchId, p, c.tick, c.orders)]
      && AfterCommand(r, p, c).result.value.submissionIndex == Some(|r.submissions|)
    ensures c.orders == OrderBatch([], [], [], []) ==>
      AfterCommand(r, p, c).record.submissions == r.submissions && AfterCommand(r, p, c).result.value.submissionIndex == None
  {
    var start := WithSubmission(r, p, c);
    MessagesQueueNothing(start, p, c.tick, c.messages);
    TreatiesQueueNothing(AfterMessages(start, p, c.tick, c.messages).record, p, c.treaties);
  }

  // ---- messages ----

  /** To the world anybody may write, naming no recipient. */
  lemma WorldMessage(r: Record, p: PlayerId, tick: nat, chat: Option<string>, content: string)
    ensures AfterMessage(r, p, tick, CommandMessage(ToWorld, None, chat, content)).record
      == r.(messages := r.messages + [Message(|r.messages|, World, p, None, tick, content)])
  {
  }

  /** To a player one may write if the recipient is known and no chat is named. */
  lemma DirectMessage(r: Record, p: PlayerId, tick: nat, recipient: Option<PlayerId>, chat: Option<string>, content: string)
    ensures AfterMessage(r, p, tick, CommandMessage(ToPlayer, recipient, chat, content)).record
      == if chat == None && recipient.Some? && recipient.value in r.state.players
         then r.(messages := r.messages + [Message(|r.messages|, Direct, p, recipient, tick, content)])
         else r
  {
  }

  /** To a chat its members may write; the message gets the next number of that chat and no other chat changes. */
  lemma ChatPosted(r: Record, p: PlayerId, tick: nat, i: nat, content: string)
    requires i < |r.chats| && forall k :: 0 <= k < i ==> r.chats[k].id != r.chats[i].id
    ensures var chat := r.chats[i];
      AfterMessage(r, p, tick, CommandMessage(ToGroup, None, Some(chat.id), content)).record ==
        if p in chat.members
        then r.(chats := r.chats[i := GroupChat(chat.id, chat.members,
               chat.messages + [ChatMessage(|chat.messages|, chat.id, p, tick, content)])])
        else r
  {
    FindChatFinds(r.chats, r.chats[i].id);
  }

  /** A command's own messages come before anything its treaties make the service announce. */
  lemma OwnMessageFirst(r: Record, p: PlayerId, c: Command, content: string)
    requires AfterCommand(r, p, c).result.Ok? && c.messages != [] && c.messages[0] == CommandMessage(ToWorld, None, None, content)
    ensures var messages := AfterCommand(r, p, c).record.messages;
      |r.messages| < |messages| && messages[|r.messages|] == Message(|r.messages|, World, p, None, c.tick, content)
  {
    var start := WithSubmission(r, p, c);
    var said := AfterMessages(start, p, c.tick, c.messages);
    FirstSaidFirst(start, p, c.tick, c.messages);
    TreatiesAppend(said.record, p, c.treaties);
  }

  lemma {:induction false} FirstSaidFirst(r: Record, p: PlayerId, tick: nat, posts: seq<CommandMessage>)
    requires AfterMessages(r, p, tick, posts).result.Ok? && posts != [] && posts[0].channel.ToWorld? && posts[0].recipient == None
    ensures var messages := AfterMessages(r, p, tick, posts).record.messages;
      |r.messages| < |messages| && messages[|r.messages|] == Message(|r.messages|, World, p, None, tick, posts[0].content)
  {
    var init := posts[..|posts| - 1];
    if init == [] {
      assert AfterMessages(r, p, tick, init) == Progress(r, Ok([]));
    } else {
      FirstSaidFirst(r, p, tick, init);
    }
  }

  lemma {:induction false} TreatiesAppend(r: Record, p: PlayerId, actions: seq<TreatyAction>)
    ensures r.messages <= AfterTreaties(r, p, actions).record.messages
  {
    if actions != [] {
      var init, last := actions[..|actions| - 1], actions[|actions| - 1];
      TreatiesAppend(r, p, init);
      var earlier := AfterTreaties(r, p, init).record;
      match TreatyOutcome(earlier.treaties, earlier.state.tick, p, last)
      case Err(_) =>
      case Ok(change) => PostedAppends(earlier.messages, earlier.state.tick, match change.news { case None => [] case Some(text) => [text] });
    }
  }

  lemma {:induction false} PostedAppends(messages: seq<Message>, tick: nat, news: seq<string>)
    ensures messages <= Posted(messages, tick, news)
  {
    if news != [] { PostedAppends(messages, tick, news[..|news| - 1]); }
  }

  function ContentOf(receipt: Receipt): string {
    match receipt
    case Plain(message) => message.content
    case InChat(post) => post.content
  }

  /** The response lists the command's messages one by one, in its own order. */
  lemma {:induction false} MessagesAnswered(r: Record, p: PlayerId, tick: nat, posts: seq<CommandMessage>)
    requires AfterMessages(r, p, tick, posts).result.Ok?
    ensures var receipts := AfterMessages(r, p, tick, posts).result.value;
      |receipts| == |posts| && forall i :: 0 <= i < |posts| ==> ContentOf(receipts[i]) == posts[i].content
  {
    if posts != [] { MessagesAnswered(r, p, tick, posts[..|posts| - 1]); }
  }

  /** And so its treaty actions, each by a treaty of the kind between the two. */
  lemma {:induction false} TreatiesAnswered(r: Record, p: PlayerId, actions: seq<TreatyAction>)
    requires AfterTreaties(r, p, actions).result.Ok?
    ensures AllAnswer(AfterTreaties(r, p, actions).result.value, p, actions)
  {
    if actions != [] {
      var treaties, t := AnsweredLast(r, p, actions);
      TreatiesAnswered(r, p, actions[..|actions| - 1]);
      AnswersMore(treaties, t, p, actions);
    }
  }

  lemma AnswersMore(treaties: seq<Treaty>, t: Treaty, p: PlayerId, actions: seq<TreatyAction>)
    requires actions != [] && AllAnswer(treaties, p, actions[..|actions| - 1]) && Answers(t, p, actions[|actions| - 1])
    ensures AllAnswer(treaties + [t], p, actions)
  {
  }

  predicate AllAnswer(treaties: seq<Treaty>, p: PlayerId, actions: seq<TreatyAction>) {
    |treaties| == |actions| && forall i :: 0 <= i < |actions| ==> Answers(treaties[i], p, actions[i])
  }

  lemma AnsweredLast(r: Record, p: PlayerId, actions: seq<TreatyAction>) returns (treaties: seq<Treaty>, t: Treaty)
    requires actions != [] && AfterTreaties(r, p, actions).result.Ok?
    ensures AfterTreaties(r, p, actions[..|actions| - 1]).result == Ok(treaties)
    ensures AfterTreaties(r, p, actions).result == Ok(treaties + [t]) && Answers(t, p, actions[|actions| - 1])
  {
    var earlier := AfterTreaties(r, p, actions[..|actions| - 1]);
    TreatyAnswered(earlier.record, p, actions[|actions| - 1]);
    treaties, t := earlier.result.value, AfterTreatyCommand(earlier.record, p, actions[|actions| - 1]).result.value;
  }

  lemma TreatyAnswered(r: Record, p: PlayerId, action: TreatyAction)
    requires AfterTreatyCommand(r, p, action).result.Ok?
    ensures Answers(AfterTreatyCommand(r, p, action).result.value, p, action)
  {
    PairInOrder(p, action.counterparty);
    LatestIsLast(r.treaties, PairOf(p, action.counterparty), action.kind);
  }

  predicate Answers(t: Treaty, p: PlayerId, action: TreatyAction) {
    && t.kind == action.kind
    && ((t.playerA == p && t.playerB == action.counterparty) || (t.playerA == action.counterparty && t.playerB == p))
    && t.status == match action.verb case Propose => Proposed case Accept => Active case Withdraw => Withdrawn
  }

  /** What the service announces is a message of the system to the world, one for each text and in their order. */
  lemma AnnouncedByTheSystem(messages: seq<Message>, tick: nat, news: seq<string>, text: string)
    ensures Posted(messages, tick, []) == messages
    ensures Posted(messages, tick, news + [text])
      == Posted(messages, tick, news) + [Message(|Posted(messages, tick, news)|, World, "system", None, tick, text)]
  {
    assert (news + [text])[..|news + [text]| - 1] == news;
  }

  // ---- one envelope per player ----

  /** A further submission adds its orders, kind by kind, behind the player's earlier ones, and nothing to anybody else's. */
  lemma NextSubmission(queue: seq<OrderEnvelope>, e: OrderEnvelope, c: OrderEnvelope)
    requires CombinedFor(queue, e.playerId) == Some(c)
    ensures CombinedFor(queue + [e], e.playerId) == Some(OrderEnvelope(c.matchId, c.playerId, c.tick, OrderBatch(
      c.orders.movements + e.orders.movements, c.orders.recruitment + e.orders.recruitment,
      c.orders.upgrades + e.orders.upgrades, c.orders.transfers + e.orders.transfers)))
    ensures forall p :: p != e.playerId ==> CombinedFor(queue + [e], p) == CombinedFor(queue, p)
  {
    var more := queue + [e];
    assert more[..|queue|] == queue && more[..|queue| + 1] == more;
    forall p { CombineOne(more, |queue|, p); }
  }

  /** A player's first submission stands as it is, and its orders come behind those of everybody who submitted before. */
  lemma FirstSubmission(s: Snapshot, m: MapDefinition, queue: seq<OrderEnvelope>, e: OrderEnvelope)
    requires forall x :: x in queue ==> x.playerId != e.playerId
    ensures CombinedFor(queue + [e], e.playerId) == Some(e)
    ensures var before, own := QueuedBatch(s, m, queue), Validated(s, m, e).accepted;
      QueuedBatch(s, m, queue + [e]) == OrderBatch(
        before.movements + own.movements, before.recruitment + own.recruitment,
        before.upgrades + own.upgrades, before.transfers + own.transfers)
  {
    var more, p := queue + [e], e.playerId;
    assert more[..|queue|] == queue && more[..|queue| + 1] == more;
    if Filter(From(p), queue) != [] { FilterMember(From(p), queue, Filter(From(p), queue)[0]); }
    SubmittersAre(queue);
    CombineOne(more, |queue|, p);
    var earlier := Submitters(queue);
    assert Submitters(more) == earlier + [p];
    assert (earlier + [p])[..|earlier + [p]| - 1] == earlier;
    forall q | q in earlier ensures AcceptedFor(s, m, more, q) == AcceptedFor(s, m, queue, q) { CombineOne(more, |queue|, q); }
    SameAccepted(s, m, more, queue, earlier);
  }

  lemma {:induction false} SameAccepted(s: Snapshot, m: MapDefinition, one: seq<OrderEnvelope>, other: seq<OrderEnvelope>,
                                       players: seq<PlayerId>)
    requires forall q :: q in players ==> AcceptedFor(s, m, one, q) == AcceptedFor(s, m, other, q)
    ensures JoinedAccepted(s, m, one, players) == JoinedAccepted(s, m, other, players)
  {
    if players != [] {
      assert players[|players| - 1] in players;
      SameAccepted(s, m, one, other, players[..|players| - 1]);
    }
  }

  // ---- the queue ----

  /** A tick takes every submission made for it, in the order of submission, and leaves every other in the queue. */
  lemma TickTakesItsOwn(r: Record, m: MapDefinition, e: OrderEnvelope)
    ensures multiset(DueQueue(r))[e] == if e.tick == r.state.tick then multiset(r.submissions)[e] else 0
    ensures multiset(Prepared(r, m).submissions)[e] == if e.tick == r.state.tick then 0 else multiset(r.submissions)[e]
    ensures Advanced(r, m).submissions == Prepared(r, m).submissions
  {
    FilterCounts(DueAt(r.state.tick), r.submissions, e);
    FilterCounts(NotDueAt(r.state.tick), r.submissions, e);
  }

  lemma {:induction false} FilterCounts<T>(keep: T -> bool, xs: seq<T>, x: T)
    ensures multiset(Filter(keep, xs))[x] == if keep(x) then multiset(xs)[x] else 0
  {
    if xs != [] {
      FilterCounts(keep, xs[..|xs| - 1], x);
      assert xs == xs[..|xs| - 1] + [xs[|xs| - 1]];
    }
  }

  /** Of two submissions for the tick, the one made first comes first. */
  lemma {:induction false} DueInOrder(submissions: seq<OrderEnvelope>, tick: nat, i: nat, j: nat) returns (k: nat, l: nat)
    requires i < j < |submissions| && submissions[i].tick == tick && submissions[j].tick == tick
    ensures var due := Filter(DueAt(tick), submissions);
      k < l < |due| && due[k] == submissions[i] && due[l] == submissions[j]
  {
    var init := submissions[..|submissions| - 1];
    if j < |init| {
      k, l := DueInOrder(init, tick, i, j);
    } else {
      FilterMember(DueAt(tick), init, init[i]);
      k :| 0 <= k < |Filter(DueAt(tick), init)| && Filter(DueAt(tick), init)[k] == init[i];
      l := |Filter(DueAt(tick), init)|;
    }
  }

  /** Replacing a player's submissions for a tick leaves it one there, the new one, last; nobody else's and no other tick's change. */
  lemma OverrideReplaces(r: Record, p: PlayerId, tick: nat, e: OrderEnvelope, x: OrderEnvelope)
    requires e.playerId == p && e.tick == tick
    ensures multiset(AfterOverride(r, p, tick, e).submissions)[x]
      == if x.playerId == p && x.tick == tick then (if x == e then 1 else 0) else multiset(r.submissions)[x]
    ensures AfterOverride(r, p, tick, e).submissions[|AfterOverride(r, p, tick, e).submissions| - 1] == e
  {
    FilterCounts(Retained(p, tick), r.submissions, x);
  }
}
