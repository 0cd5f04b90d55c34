/**
 * The view-state bookkeeping of the chat client action as values: the current
 * channel, the per-channel scroll cache, the separator memo and the snapshots
 * of the unread counter and the last seen message. Each transition of the
 * widget is a function from the state before to the state after; the class
 * in ChatClientAction is specified by these functions.
 */
module ChatView {
  import opened ChatTypes
  import opened ChatRules

  datatype ViewState = ViewState(
    current: Option<Channel>,
    scrolltops: map<ChannelId, int>,
    separator: Separator,
    unreadCounter: int,
    lastSeen: LastSeen)

  /** The state left by init, before the first channel is set: no channel, an
      empty scroll cache, and the counters still undefined (falsy). */
  function Initial(): ViewState
  {
    ViewState(None, map[], Unset, 0, NotSeen)
  }

  // ---------------------------------------------------------------------------
  // The separator rule

  /** Where the 'New messages' separator goes for a thread showing `messages`. */
  function SeparatorRule(unreadCounter: int, lastSeen: LastSeen, messages: seq<Message>): (r: Separator)
    ensures r != Unset
    ensures r == NoSeparator <==> unreadCounter == 0
    ensures r == Top <==> unreadCounter != 0 && (lastSeen.NotSeen? || !HasMessage(messages, lastSeen.id))
    ensures r.AtMessage? <==> unreadCounter != 0 && lastSeen.SeenUpTo? && HasMessage(messages, lastSeen.id)
    ensures r.AtMessage? ==> lastSeen == SeenUpTo(r.id)
  {
    if unreadCounter == 0 then NoSeparator
    else if lastSeen.NotSeen? || !HasMessage(messages, lastSeen.id) then Top
    else AtMessage(lastSeen.id)
  }

  /** The memo write of get_thread_rendering_options. */
  function Memoize(s: ViewState, messages: seq<Message>): ViewState
  {
    if s.separator == Unset then s.(separator := SeparatorRule(s.unreadCounter, s.lastSeen, messages))
    else s
  }

  /** The options get_thread_rendering_options returns once its memo is written. */
  function Options(s: ViewState, allHistoryLoaded: bool): ThreadOptions
    requires s.current.Some?
  {
    ThreadOptions(
      channelId := s.current.value.id,
      displayLoadMore := !allHistoryLoaded,
      displayNeedactions := s.current.value.displayNeedactions,
      separator := s.separator,
      squashCloseMessages := SquashCloseMessages(s.current.value.kind))
  }

  /** Rendering fills the memo from the rule when it is empty, keeps it
      otherwise, and touches nothing else. */
  lemma MemoizeComputesOnce(s: ViewState, messages: seq<Message>)
    ensures s.separator == Unset ==>
      Memoize(s, messages).separator == SeparatorRule(s.unreadCounter, s.lastSeen, messages)
    ensures s.separator != Unset ==> Memoize(s, messages) == s
    ensures Memoize(s, messages).separator != Unset
    ensures Memoize(s, messages).(separator := s.separator) == s
  {
  }

  /** The state after rendering with each message list in turn. */
  function RenderAll(s: ViewState, lists: seq<seq<Message>>): ViewState
    decreases |lists|
  {
    if lists == [] then s else RenderAll(Memoize(s, lists[0]), lists[1..])
  }

  /** The separator is sticky: once set (to `false` included), rendering with
      any message lists keeps it and the whole state. */
  lemma {:induction false} SeparatorSticky(s: ViewState, lists: seq<seq<Message>>)
    requires s.separator != Unset
    ensures RenderAll(s, lists) == s
    decreases |lists|
  {
    if lists != [] {
      SeparatorSticky(Memoize(s, lists[0]), lists[1..]);
    }
  }

  /** With an empty memo, the first message list decides the separator for all
      later renders. */
  lemma {:induction false} FirstRenderDecides(s: ViewState, lists: seq<seq<Message>>)
    requires s.separator == Unset && lists != []
    ensures RenderAll(s, lists).separator == SeparatorRule(s.unreadCounter, s.lastSeen, lists[0])
  {
    SeparatorSticky(Memoize(s, lists[0]), lists[1..]);
  }

  // ---------------------------------------------------------------------------
  // set_channel

  /** The scroll cache once the thread's offset is stored under the previous channel. */
  function SavedScrolltops(s: ViewState, threadScrolltop: int): map<ChannelId, int>
  {
    if s.current.Some? then s.scrolltops[s.current.value.id := threadScrolltop] else s.scrolltops
  }

  /** The offset set_channel restores for `ch`, read after the save. */
  function RestoredOffset(s: ViewState, ch: Channel, threadScrolltop: int): Option<int>
  {
    var m := SavedScrolltops(s, threadScrolltop);
    if ch.id in m then Some(m[ch.id]) else None
  }

  /** The synchronous part of set_channel. */
  function Switch(s: ViewState, ch: Channel, threadScrolltop: int): ViewState
  {
    ViewState(Some(ch), SavedScrolltops(s, threadScrolltop), Unset, ch.unreadCounter, ch.lastSeenMessageId)
  }

  /** set_channel followed by the render of the fetched thread. */
  function SetChannel(s: ViewState, ch: Channel, threadScrolltop: int, messages: seq<Message>): ViewState
  {
    Memoize(Switch(s, ch, threadScrolltop), messages)
  }

  /** The offset is saved under the previous channel's id and only when there
      is a previous channel; no other entry changes. */
  lemma SwitchSavesPrevious(s: ViewState, ch: Channel, threadScrolltop: int)
    ensures s.current.None? ==> Switch(s, ch, threadScrolltop).scrolltops == s.scrolltops
    ensures s.current.Some? ==>
      var m := Switch(s, ch, threadScrolltop).scrolltops;
      var prev := s.current.value.id;
      && m.Keys == s.scrolltops.Keys + {prev}
      && m[prev] == threadScrolltop
      && (forall k :: k in s.scrolltops && k != prev ==> m[k] == s.scrolltops[k])
  {
  }

  /** Re-selecting the current channel restores the offset just saved; any
      other channel gets what the cache held for it. */
  lemma RestoreReadsAfterSave(s: ViewState, ch: Channel, threadScrolltop: int)
    ensures s.current.Some? && s.current.value.id == ch.id ==>
      RestoredOffset(s, ch, threadScrolltop) == Some(threadScrolltop)
    ensures (s.current.None? || s.current.value.id != ch.id) ==>
      RestoredOffset(s, ch, threadScrolltop) == (if ch.id in s.scrolltops then Some(s.scrolltops[ch.id]) else None)
  {
  }

  /** After set_channel and its render the new channel is current, the
      counters are snapshots of the new channel and the separator is the rule
      applied to the fetched thread, not what the previous channel had. */
  lemma SetChannelSnapshots(s: ViewState, ch: Channel, threadScrolltop: int, messages: seq<Message>)
    ensures var r := SetChannel(s, ch, threadScrolltop, messages);
      && r.current == Some(ch)
      && r.unreadCounter == ch.unreadCounter
      && r.lastSeen == ch.lastSeenMessageId
      && r.separator == SeparatorRule(ch.unreadCounter, ch.lastSeenMessageId, messages)
      && r.scrolltops == Switch(s, ch, threadScrolltop).scrolltops
  {
  }

  /** on_redirect, once the direct conversation exists: switch to it unless it
      is the channel shown. */
  function DirectMessageReady(s: ViewState, dm: Channel, threadScrolltop: int, messages: seq<Message>): ViewState
  {
    if SwitchesTo(s.current, dm.id) then SetChannel(s, dm, threadScrolltop, messages) else s
  }

  /** When that conversation is already shown nothing is reset: separator,
      snapshots and cache stay. */
  lemma ShownDirectMessageKeepsState(s: ViewState, dm: Channel, threadScrolltop: int, messages: seq<Message>)
    requires s.current.Some? && s.current.value.id == dm.id
    ensures DirectMessageReady(s, dm, threadScrolltop, messages) == s
  {
  }

  // ---------------------------------------------------------------------------
  // load_more_messages

  /** The reset done when older messages arrive: only a 'top' separator is
      cleared, to be recomputed. */
  function ResetTopSeparator(s: ViewState): ViewState
  {
    if s.separator == Top then s.(separator := Unset) else s
  }

  function LoadMore(s: ViewState, messages: seq<Message>): ViewState
  {
    Memoize(ResetTopSeparator(s), messages)
  }

  /** A 'top' separator is recomputed against the longer list (and moves to the
      last seen message once that message is loaded); a message-id separator
      or `false` is kept. */
  lemma LoadMoreRecomputesOnlyTop(s: ViewState, messages: seq<Message>)
    ensures ResetTopSeparator(s).separator == (if s.separator == Top then Unset else s.separator)
    ensures s.separator == Top ==>
      LoadMore(s, messages).separator == SeparatorRule(s.unreadCounter, s.lastSeen, messages)
    ensures s.separator == Top && s.unreadCounter != 0 && s.lastSeen.SeenUpTo? && HasMessage(messages, s.lastSeen.id) ==>
      LoadMore(s, messages).separator == AtMessage(s.lastSeen.id)
    ensures s.separator != Top && s.separator != Unset ==> LoadMore(s, messages) == s
  {
  }

  // ---------------------------------------------------------------------------
  // on_new_message, on_update_message, detach and attach

  /** on_new_message: evict the cached offsets of the message's channels, then
      render the refetched thread if it belongs to the current channel. */
  function NewMessage(s: ViewState, msg: Message, messages: seq<Message>): ViewState
    requires s.current.Some?
  {
    var evicted := s.(scrolltops := s.scrolltops - (set c | c in msg.channelIds));
    if RouteNewMessage(s.current.value, msg).refetch then Memoize(evicted, messages) else evicted
  }

  /** Exactly the keys in channel_ids are removed, every other entry is kept,
      and the separator memo is not reset. */
  lemma NewMessageEvicts(s: ViewState, msg: Message, messages: seq<Message>)
    requires s.current.Some?
    ensures var r := NewMessage(s, msg, messages);
      && (forall k :: k in r.scrolltops <==> k in s.scrolltops && k !in msg.channelIds)
      && (forall k :: k in r.scrolltops ==> r.scrolltops[k] == s.scrolltops[k])
      && r.current == s.current
      && (s.separator != Unset ==> r.separator == s.separator)
  {
  }

  /** A stream of new messages, each followed by the thread fetched for it. */
  function NewMessages(s: ViewState, msgs: seq<Message>, threads: seq<seq<Message>>): ViewState
    requires s.current.Some? && |threads| == |msgs|
    decreases |msgs|
  {
    if msgs == [] then s else NewMessages(NewMessage(s, msgs[0], threads[0]), msgs[1..], threads[1..])
  }

  /** The channels any of the messages was posted in. */
  function Touched(msgs: seq<Message>): set<ChannelId>
  {
    set i, c | 0 <= i < |msgs| && c in msgs[i].channelIds :: c
  }

  /** After a stream of new messages the cache holds exactly the entries of the
      channels none of them touched, with their values unchanged. */
  lemma {:induction false} NewMessagesEvictTouched(s: ViewState, msgs: seq<Message>, threads: seq<seq<Message>>)
    requires s.current.Some? && |threads| == |msgs|
    ensures NewMessages(s, msgs, threads).scrolltops == s.scrolltops - Touched(msgs)
    decreases |msgs|
  {
    if msgs != [] {
      var s1 := NewMessage(s, msgs[0], threads[0]);
      NewMessagesEvictTouched(s1, msgs[1..], threads[1..]);
      assert Touched(msgs) == (set c | c in msgs[0].channelIds) + Touched(msgs[1..]) by {
        forall c | c in Touched(msgs)
          ensures c in msgs[0].channelIds || c in Touched(msgs[1..])
        {
          var i :| 0 <= i < |msgs| && c in msgs[i].channelIds;
          if i > 0 {
            assert msgs[1..][i - 1] == msgs[i];
          }
        }
        forall c | c in Touched(msgs[1..])
          ensures c in Touched(msgs)
        {
          var i :| 0 <= i < |msgs[1..]| && c in msgs[1..][i].channelIds;
          assert msgs[i + 1] == msgs[1..][i];
        }
      }
    }
  }

  /** on_update_message: both re-render paths pass the fetched list through
      get_thread_rendering_options. */
  function UpdateMessage(s: ViewState, msg: Message, messages: seq<Message>): ViewState
    requires s.current.Some?
  {
    if RouteUpdate(s.current.value.id, msg) != Ignore then Memoize(s, messages) else s
  }

  /** An update never changes the channel, the cache or the snapshots, and
      never moves a separator that is already placed. */
  lemma UpdateKeepsBookkeeping(s: ViewState, msg: Message, messages: seq<Message>)
    requires s.current.Some? && s.separator != Unset
    ensures UpdateMessage(s, msg, messages) == s
  {
  }

  /** on_detach_callback: remember the thread's offset for the current channel. */
  function Detach(s: ViewState, threadScrolltop: int): ViewState
    requires s.current.Some?
  {
    s.(scrolltops := s.scrolltops[s.current.value.id := threadScrolltop])
  }

  /** The offset on_attach_callback scrolls to. */
  function AttachOffset(s: ViewState): Option<int>
    requires s.current.Some?
  {
    if s.current.value.id in s.scrolltops then Some(s.scrolltops[s.current.value.id]) else None
  }

  /** Detaching and re-attaching the action brings the thread back to where it was. */
  lemma DetachAttachRoundTrip(s: ViewState, threadScrolltop: int)
    requires s.current.Some?
    ensures Detach(s, threadScrolltop).current == s.current
    ensures AttachOffset(Detach(s, threadScrolltop)) == Some(threadScrolltop)
  {
  }

  /** Detaching and then selecting the same channel again restores that offset too. */
  lemma DetachThenReselect(s: ViewState, detached: int, later: int)
    requires s.current.Some?
    ensures RestoredOffset(Detach(s, detached), s.current.value, later) == Some(later)
  {
  }

  // ---------------------------------------------------------------------------
  // unsubscribe_from_channel

  /** Switch to the inbox (saving the current channel's offset), render it, then
      drop the unsubscribed channel's entry. */
  function Unsubscribe(s: ViewState, ch: Channel, inbox: Channel, threadScrolltop: int, inboxMessages: seq<Message>): ViewState
  {
    var r := SetChannel(s, inbox, threadScrolltop, inboxMessages);
    r.(scrolltops := r.scrolltops - {ch.id})
  }

  /** The unsubscribed channel has no entry afterwards, even when it was the
      current one; the previously current channel (if different) keeps the
      offset just saved; every other entry is kept; the inbox is shown. */
  lemma UnsubscribeDropsEntry(s: ViewState, ch: Channel, inbox: Channel, threadScrolltop: int, inboxMessages: seq<Message>)
    ensures var r := Unsubscribe(s, ch, inbox, threadScrolltop, inboxMessages);
      && ch.id !in r.scrolltops
      && r.current == Some(inbox)
      && (s.current.Some? && s.current.value.id != ch.id ==>
            s.current.value.id in r.scrolltops && r.scrolltops[s.current.value.id] == threadScrolltop)
      && (forall k :: k in s.scrolltops && k != ch.id ==> k in r.scrolltops)
      && (forall k :: k in r.scrolltops && (s.current.None? || k != s.current.value.id) ==>
            k in s.scrolltops && r.scrolltops[k] == s.scrolltops[k])
  {
  }
}
