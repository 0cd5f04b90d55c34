/**
 * Values the chat client action reads from its collaborators: channels and
 * messages as the chat manager hands them over, the separator memo, and the
 * rendering options passed to the thread widget.
 */
module ChatTypes {

  datatype Option<T> = None | Some(value: T)

  /** A channel id is either the name of a mailbox ("channel_inbox",
      "channel_starred") or the numeric id of a channel record. */
  datatype ChannelId = Mailbox(name: string) | Record(n: int)

  const Inbox: ChannelId := Mailbox("channel_inbox")
  const Starred: ChannelId := Mailbox("channel_starred")

  /** The channel types the widget distinguishes ('static', 'public', 'private', 'dm'). */
  datatype ChannelType = Static | Public | Private | DirectMessage

  /** last_seen_message_id: `false` when nothing was seen yet, else a message id. */
  datatype LastSeen = NotSeen | SeenUpTo(id: int)

  datatype Channel = Channel(
    id: ChannelId,
    name: string,
    kind: ChannelType,
    unreadCounter: int,
    lastSeenMessageId: LastSeen,
    needactionCounter: int,
    displayNeedactions: bool)

  datatype Message = Message(
    id: int,
    channelIds: seq<ChannelId>,
    isStarred: bool,
    isNeedaction: bool)

  /** messages_separator_position: undefined (not computed yet), false (no
      separator), 'top' (every displayed message is unread) or a message id. */
  datatype Separator = Unset | NoSeparator | Top | AtMessage(id: int)

  /** The object returned by get_thread_rendering_options. */
  datatype ThreadOptions = ThreadOptions(
    channelId: ChannelId,
    displayLoadMore: bool,
    displayNeedactions: bool,
    separator: Separator,
    squashCloseMessages: bool)

  /** Some message of the list has the given id (what `_.findWhere(messages, {id: id})`
      tests when its result is used as a boolean). */
  predicate HasMessage(messages: seq<Message>, id: int)
  {
    exists i :: 0 <= i < |messages| && messages[i].id == id
  }
}
