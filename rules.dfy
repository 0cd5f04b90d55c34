/**
 * The pure decision rules of the chat client action: which control-panel
 * buttons and which composer are shown for a channel, how an updated or a new
 * message is routed, the `anyone_listening` accumulator, the redirect choice,
 * and the entries of the public-channel autocomplete.
 */
module ChatRules {
  import opened ChatTypes

  // ---------------------------------------------------------------------------
  // Visibility

  /** What set_channel shows once the thread of `ch` is rendered. */
  datatype Controls = Controls(
    detach: bool,
    invite: bool,
    unsubscribe: bool,
    settings: bool,
    markRead: bool,
    unstarAll: bool,
    composer: bool)

  function ControlsFor(ch: Channel): (c: Controls)
    ensures c.detach <==> ch.kind != Static
    ensures c.invite <==> ch.kind !in {DirectMessage, Static}
    ensures c.unsubscribe <==> ch.kind !in {DirectMessage, Static}
    ensures c.settings <==> ch.kind !in {DirectMessage, Static}
    ensures c.markRead <==> ch.id == Inbox
    ensures c.unstarAll <==> ch.id == Starred
    ensures c.composer <==> ch.kind != Static
  {
    var member := ch.kind != DirectMessage && ch.kind != Static;
    Controls(
      detach := ch.kind != Static,
      invite := member,
      unsubscribe := member,
      settings := member,
      markRead := ch.id == Inbox,
      unstarAll := ch.id == Starred,
      composer := ch.kind != Static)
  }

  /** squash_close_messages of the rendering options. */
  predicate SquashCloseMessages(kind: ChannelType)
  {
    kind != Static
  }

  /** The three decisions that hinge on "is the channel static" agree, and a
      channel whose members can be managed can always be detached. */
  lemma ControlsAgree(ch: Channel)
    ensures ControlsFor(ch).composer == ControlsFor(ch).detach == SquashCloseMessages(ch.kind)
    ensures ControlsFor(ch).invite ==> ControlsFor(ch).detach
    ensures !(ControlsFor(ch).markRead && ControlsFor(ch).unstarAll)
  {
  }

  /** The `disabled` class of the mark-read and unstar-all buttons. */
  datatype DisabledFlags = DisabledFlags(markRead: bool, unstarAll: bool)

  function UpdateButtonStatus(flags: DisabledFlags, current: ChannelId, disabled: bool): (r: DisabledFlags)
    ensures current == Inbox ==> r == flags.(markRead := disabled)
    ensures current == Starred ==> r == flags.(unstarAll := disabled)
    ensures current != Inbox && current != Starred ==> r == flags
  {
    var f := if current == Inbox then flags.(markRead := disabled) else flags;
    if current == Starred then f.(unstarAll := disabled) else f
  }

  // ---------------------------------------------------------------------------
  // Routing of bus notifications

  /** What on_update_message does with an update. */
  datatype UpdateRoute = RemoveAndRender | Refetch | Ignore

  /** The message no longer belongs in the special mailbox being shown. */
  predicate LeavesMailbox(current: ChannelId, msg: Message)
  {
    (current == Starred && !msg.isStarred) || (current == Inbox && !msg.isNeedaction)
  }

  function RouteUpdate(current: ChannelId, msg: Message): (r: UpdateRoute)
    ensures r == RemoveAndRender <==>
              (current == Starred && !msg.isStarred) || (current == Inbox && !msg.isNeedaction)
    ensures r == Refetch <==> !LeavesMailbox(current, msg) && current in msg.channelIds
    ensures r == Ignore <==> !LeavesMailbox(current, msg) && current !in msg.channelIds
  {
    if LeavesMailbox(current, msg) then RemoveAndRender
    else if current in msg.channelIds then Refetch
    else Ignore
  }

  /** What on_new_message asks of the chat manager for the current channel. */
  datatype NewMessageEffects = NewMessageEffects(refetch: bool, markSeen: bool)

  function RouteNewMessage(current: Channel, msg: Message): (e: NewMessageEffects)
    ensures e.refetch <==> current.id in msg.channelIds
    ensures e.markSeen <==> current.id in msg.channelIds && current.kind != Static
  {
    var shown := current.id in msg.channelIds;
    NewMessageEffects(refetch := shown, markSeen := shown && current.kind != Static)
  }

  /** On an ordinary channel (not a mailbox) an update and a new message lead to
      a re-render in exactly the same cases. */
  lemma RecordChannelRoutesAgree(current: Channel, msg: Message)
    requires current.id.Record?
    ensures RouteUpdate(current.id, msg) != Ignore <==> RouteNewMessage(current, msg).refetch
    ensures RouteUpdate(current.id, msg) != RemoveAndRender
  {
  }

  /** The `anyone_listening` handler: the query is displayed if it already was,
      or if it asks about the channel currently shown. */
  function AnyoneListening(isDisplayed: bool, asked: ChannelId, current: ChannelId): (r: bool)
    ensures isDisplayed ==> r
    ensures r && !isDisplayed ==> asked == current
    ensures !isDisplayed && asked == current ==> r
  {
    isDisplayed || asked == current
  }

  /** The same query object passed to listeners showing the given channels, in order. */
  function AskListeners(isDisplayed: bool, asked: ChannelId, currents: seq<ChannelId>): bool
    decreases |currents|
  {
    if currents == [] then isDisplayed
    else AskListeners(AnyoneListening(isDisplayed, asked, currents[0]), asked, currents[1..])
  }

  /** The accumulator never clears: after every listener ran, the query is
      displayed iff it was to begin with or some listener shows that channel. */
  lemma {:induction false} AskListenersAny(isDisplayed: bool, asked: ChannelId, currents: seq<ChannelId>)
    ensures AskListeners(isDisplayed, asked, currents) <==> isDisplayed || asked in currents
    decreases |currents|
  {
    if currents != [] {
      AskListenersAny(AnyoneListening(isDisplayed, asked, currents[0]), asked, currents[1..]);
      assert currents == [currents[0]] + currents[1..];
    }
  }

  // ---------------------------------------------------------------------------
  // Redirect

  datatype Redirect = OpenDocument | OpenDirectMessage

  /** on_redirect: a partner with a user other than the current one opens a
      direct conversation; everything else opens the record's form.
      `userIds` is the answer of the users search, consulted only for partners. */
  function RedirectTarget(resModel: string, userIds: seq<int>, uid: int): (r: Redirect)
    ensures r == OpenDirectMessage <==> resModel == "res.partner" && |userIds| > 0 && userIds[0] != uid
    ensures resModel != "res.partner" ==> r == OpenDocument
  {
    if resModel == "res.partner" && |userIds| > 0 && userIds[0] != uid then OpenDirectMessage
    else OpenDocument
  }

  /** Once the direct conversation exists, the view switches to it unless it is
      already the channel shown. */
  predicate SwitchesTo(current: Option<Channel>, target: ChannelId)
  {
    current.None? || current.value.id != target
  }

  // ---------------------------------------------------------------------------
  // Public-channel autocomplete

  /** One record of channel_search_to_join. */
  datatype ChannelHit = ChannelHit(id: int, name: string)

  /** An autocomplete entry: an existing channel (value and caption, the `label`, are its name)
      or the trailing "create" option. */
  datatype Entry = ChannelEntry(id: int, value: string, caption: string) | CreateEntry(caption: string)

  const CreateValue: string := "_create"

  /** The `value` field the select handler compares. */
  function ValueOf(e: Entry): string
  {
    match e
    case ChannelEntry(_, value, _) => value
    case CreateEntry(_) => CreateValue
  }

  function EntryOf(hit: ChannelHit): (e: Entry)
    ensures e.ChannelEntry? && e.id == hit.id && ValueOf(e) == hit.name
  {
    ChannelEntry(hit.id, hit.name, hit.name)
  }

  function CreateLabel(term: string): string
  {
    "<strong>Create <em>\"#" + term + "\"</em></strong>"
  }

  datatype SelectAction = NoAction | CreatePublic(name: string) | Join(channelId: int)

  /** The select handler as written: the create option is recognised by its value. */
  function SelectAsWritten(lastSearch: string, item: Entry): (a: SelectAction)
    ensures lastSearch == "" ==> a == NoAction
    ensures lastSearch != "" && ValueOf(item) == CreateValue ==> a == CreatePublic(lastSearch)
    ensures lastSearch != "" && ValueOf(item) != CreateValue ==> a == Join(item.id)
  {
    if lastSearch == "" then NoAction
    else if ValueOf(item) == CreateValue then CreatePublic(lastSearch)
    else Join(item.id)
  }

  /** A channel literally named "_create" is mistaken for the create option:
      selecting it creates a new channel instead of joining it. */
  lemma SelectAsWrittenMisreadsChannel()
    ensures SelectAsWritten("gen", EntryOf(ChannelHit(7, "_create"))) == CreatePublic("gen")
    ensures SelectAsWritten("gen", EntryOf(ChannelHit(7, "_create"))) != Join(7)
  {
  }

  /** The select handler with the create option recognised by its kind. */
  function Select(lastSearch: string, item: Entry): (a: SelectAction)
    ensures lastSearch == "" ==> a == NoAction
    ensures lastSearch != "" && item.CreateEntry? ==> a == CreatePublic(lastSearch)
    ensures lastSearch != "" && item.ChannelEntry? ==> a == Join(item.id)
  {
    if lastSearch == "" then NoAction
    else match item
      case CreateEntry(_) => CreatePublic(lastSearch)
      case ChannelEntry(id, _, _) => Join(id)
  }

  /** Selecting the entry of any search hit joins that very channel, whatever its name. */
  lemma SelectJoinsEveryHit(lastSearch: string, hit: ChannelHit)
    requires lastSearch != ""
    ensures Select(lastSearch, EntryOf(hit)) == Join(hit.id)
  {
  }

  /** Both handlers agree except on a channel named like the sentinel. */
  lemma SelectAgreesAwayFromSentinel(lastSearch: string, item: Entry)
    requires item.ChannelEntry? ==> item.value != CreateValue
    ensures SelectAsWritten(lastSearch, item) == Select(lastSearch, item)
  {
  }
}
