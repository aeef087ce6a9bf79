/** The parts of a match record beside its state: messages, chats, treaties and alliances. */
module RecordTypes {
  import opened Collections
  import opened Domain

  datatype Channel = World | Direct
  datatype Message = Message(id: nat, channel: Channel, sender: string, recipient: Option<PlayerId>, tick: nat, content: string)

  datatype ChatMessage = ChatMessage(id: nat, chatId: string, sender: PlayerId, tick: nat, content: string)
  datatype GroupChat = GroupChat(id: string, members: seq<PlayerId>, messages: seq<ChatMessage>)

  datatype TreatyKind = NonAggression | Defensive | Trade
  datatype TreatyStatus = Proposed | Active | Honored | Withdrawn | BrokenByA | BrokenByB
  datatype Treaty = Treaty(
    id: nat,
    playerA: PlayerId,
    playerB: PlayerId,
    kind: TreatyKind,
    status: TreatyStatus,
    proposedBy: PlayerId,
    proposedTick: nat,
    signedTick: Option<nat>,
    withdrawnBy: Option<PlayerId>,
    withdrawnTick: Option<nat>)

  datatype Member = Member(playerId: PlayerId, joinedTick: nat)
  datatype League = League(id: string, name: string, leader: PlayerId, formedTick: nat, members: seq<Member>)

  /** Everything a command or a tick can change, as one value. */
  datatype Record = Record(
    matchId: string,
    state: Snapshot,
    submissions: seq<OrderEnvelope>,
    messages: seq<Message>,
    chats: seq<GroupChat>,
    treaties: seq<Treaty>,
    leagues: seq<League>)

  /** Why a command step is refused; each stands for one error code of the service. */
  datatype CommandError =
    | UnknownPlayer
    | PlayerAlreadyInAlliance | AllianceNameRequired | AllianceIdRequired | AllianceNotFound | PlayerNotInAlliance
    | UnsupportedTreatyTransition | TreatyNotFound | TreatyPlayerNotFound | SelfTargetedTreaty
    | UnsupportedRecipient | GroupChatNotVisible
}
