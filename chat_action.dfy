/**
 * The chat client action as an object: the fields it updates in place and the
 * methods that update them. Every method is specified by the transition of
 * ChatView it performs; asynchronous continuations run as the later steps of
 * the method, and what the widget reads from the page or the chat manager
 * (the thread's scroll offset, the fetched message lists, whether all history
 * is loaded) is passed in.
 */
module ChatClientAction {
  import opened ChatTypes
  import opened ChatRules
  import opened ChatView

  /** What set_channel asks of the page and the chat manager besides its state. */
  datatype SetChannelEffects = SetChannelEffects(
    restoredOffset: Option<int>,   // offset handed to thread.scroll_to
    options: ThreadOptions,        // options the fetched thread is rendered with
    threadEmpty: bool,             // argument of update_button_status
    snackbar: Option<int>,         // needaction count shown in the undo snackbar
    markSeen: bool,                // mark_channel_as_seen and mark_all_as_read
    controls: Controls)

  /** `_.findWhere(messages, {id: id})`: the index of the first message with that id. */
  method FindWhere(messages: seq<Message>, id: int) returns (index: Option<nat>)
    ensures index.Some? ==> index.value < |messages| && messages[index.value].id == id
    ensures index.Some? ==> forall j :: 0 <= j < index.value ==> messages[j].id != id
    ensures index.None? <==> !HasMessage(messages, id)
  {
    var i := 0;
    while i < |messages|
      invariant 0 <= i <= |messages|
      invariant forall j :: 0 <= j < i ==> messages[j].id != id
    {
      if messages[i].id == id {
        return Some(i);
      }
      i := i + 1;
    }
    return None;
  }

  class ChatAction {
    var current: Option<Channel>
    var scrolltops: map<ChannelId, int>
    var separator: Separator
    var unreadCounter: int
    var lastSeen: LastSeen

    function State(): ViewState
      reads this
    {
      ViewState(current, scrolltops, separator, unreadCounter, lastSeen)
    }

    /** init: an empty scroll cache and no channel yet. */
    constructor ()
      ensures State() == Initial()
    {
      current := None;
      scrolltops := map[];
      separator := Unset;
      unreadCounter := 0;
      lastSeen := NotSeen;
    }

    /** on_attach_callback: the offset the thread is scrolled back to. */
    method OnAttachCallback() returns (offset: Option<int>)
      requires current.Some?
      ensures offset.Some? <==> current.value.id in scrolltops
      ensures offset.Some? ==> offset.value == scrolltops[current.value.id]
    {
      var id := current.value.id;
      offset := if id in scrolltops then Some(scrolltops[id]) else None;
    }

    /** on_detach_callback: remember where the thread was. */
    method OnDetachCallback(threadScrolltop: int)
      requires current.Some?
      modifies this
      ensures State() == Detach(old(State()), threadScrolltop)
    {
      scrolltops := scrolltops[current.value.id := threadScrolltop];
    }

    /** get_thread_rendering_options: fills the separator memo once, then
        reports the options for the current channel. */
    method GetThreadRenderingOptions(messages: seq<Message>, allHistoryLoaded: bool) returns (opts: ThreadOptions)
      requires current.Some?
      modifies this
      ensures State() == Memoize(old(State()), messages)
      ensures opts == Options(State(), allHistoryLoaded)
    {
      if separator == Unset {
        var msgId := lastSeen;
        if unreadCounter == 0 {
          separator := NoSeparator;
        } else {
          var found := None;
          if msgId.SeenUpTo? {
            found := FindWhere(messages, msgId.id);
          }
          if msgId.NotSeen? || found.None? {
            separator := Top;
          } else {
            separator := AtMessage(msgId.id);
          }
        }
      }
      var ch := current.value;
      opts := ThreadOptions(ch.id, !allHistoryLoaded, ch.displayNeedactions, separator, ch.kind != Static);
    }

    /** set_channel, including the render of the fetched thread and what runs
        once it is rendered. */
    method SetChannel(channel: Channel, threadScrolltop: int, messages: seq<Message>, allHistoryLoaded: bool)
      returns (fx: SetChannelEffects)
      modifies this
      ensures State() == ChatView.SetChannel(old(State()), channel, threadScrolltop, messages)
      ensures fx.restoredOffset == RestoredOffset(old(State()), channel, threadScrolltop)
      ensures fx.options == Options(State(), allHistoryLoaded)
      ensures fx.threadEmpty <==> |messages| == 0
      ensures fx.snackbar.Some? <==> channel.kind != Static && channel.needactionCounter > 0
      ensures fx.snackbar.Some? ==> fx.snackbar.value == channel.needactionCounter
      ensures fx.markSeen <==> channel.kind != Static
      ensures fx.controls == ControlsFor(channel)
    {
      if current.Some? {
        scrolltops := scrolltops[current.value.id := threadScrolltop];
      }
      var newScrolltop := if channel.id in scrolltops then Some(scrolltops[channel.id]) else None;
      current := Some(channel);
      separator := Unset;
      unreadCounter := channel.unreadCounter;
      lastSeen := channel.lastSeenMessageId;
      // fetch_and_render_thread
      var opts := GetThreadRenderingOptions(messages, allHistoryLoaded);
      // once the thread is rendered
      var markSeen := channel.kind != Static;
      var snackbar := if markSeen && channel.needactionCounter > 0 then Some(channel.needactionCounter) else None;
      fx := SetChannelEffects(newScrolltop, opts, |messages| == 0, snackbar, markSeen, ControlsFor(channel));
    }

    /** load_more_messages: the older messages are fetched; a 'top' separator
        is cleared so that the render recomputes it. */
    method LoadMoreMessages(messages: seq<Message>, allHistoryLoaded: bool) returns (opts: ThreadOptions)
      requires current.Some?
      modifies this
      ensures State() == LoadMore(old(State()), messages)
      ensures opts == Options(State(), allHistoryLoaded)
    {
      if separator == Top {
        separator := Unset;
      }
      opts := GetThreadRenderingOptions(messages, allHistoryLoaded);
    }

    /** on_new_message: mark seen and refetch when the message is in the current
        channel, and drop the cached offsets of all its channels. */
    method OnNewMessage(msg: Message, messages: seq<Message>, allHistoryLoaded: bool)
      returns (fx: NewMessageEffects)
      requires current.Some?
      modifies this
      ensures fx == RouteNewMessage(old(current).value, msg)
      ensures State() == NewMessage(old(State()), msg, messages)
    {
      var refetch, markSeen := false, false;
      if current.value.id in msg.channelIds {
        markSeen := current.value.kind != Static;
        refetch := true;
      }
      scrolltops := scrolltops - (set c | c in msg.channelIds);
      if refetch {
        var _ := GetThreadRenderingOptions(messages, allHistoryLoaded);
      }
      fx := NewMessageEffects(refetch, markSeen);
    }

    /** on_update_message: remove-and-render, refetch, or nothing. */
    method OnUpdateMessage(msg: Message, messages: seq<Message>, allHistoryLoaded: bool)
      returns (route: UpdateRoute, opts: Option<ThreadOptions>)
      requires current.Some?
      modifies this
      ensures route == RouteUpdate(old(current).value.id, msg)
      ensures State() == UpdateMessage(old(State()), msg, messages)
      ensures opts.Some? <==> route != Ignore
      ensures opts.Some? ==> opts.value == Options(State(), allHistoryLoaded)
    {
      var currentId := current.value.id;
      if (currentId == Starred && !msg.isStarred) || (currentId == Inbox && !msg.isNeedaction) {
        route := RemoveAndRender;
      } else if currentId in msg.channelIds {
        route := Refetch;
      } else {
        route := Ignore;
      }
      opts := None;
      if route != Ignore {
        var o := GetThreadRenderingOptions(messages, allHistoryLoaded);
        opts := Some(o);
      }
    }

    /** unsubscribe_from_channel, after the chat manager has unsubscribed:
        switch to the inbox, then forget the channel's offset. `notify` tells
        whether the "You unsubscribed" notification is shown. */
    method UnsubscribeFromChannel(channel: Channel, inbox: Channel, threadScrolltop: int,
                                  inboxMessages: seq<Message>, allHistoryLoaded: bool)
      returns (notify: bool, fx: SetChannelEffects)
      modifies this
      ensures State() == Unsubscribe(old(State()), channel, inbox, threadScrolltop, inboxMessages)
      ensures notify <==> channel.kind in {Public, Private}
      ensures fx.restoredOffset == RestoredOffset(old(State()), inbox, threadScrolltop)
      ensures fx.controls == ControlsFor(inbox)
    {
      fx := SetChannel(inbox, threadScrolltop, inboxMessages, allHistoryLoaded);
      notify := channel.kind == Public || channel.kind == Private;
      scrolltops := scrolltops - {channel.id};
    }

    /** The continuation of on_redirect once the direct conversation `dm` exists. */
    method OnDirectMessageReady(dm: Channel, threadScrolltop: int, messages: seq<Message>, allHistoryLoaded: bool)
      returns (fx: Option<SetChannelEffects>)
      modifies this
      ensures fx.Some? <==> SwitchesTo(old(current), dm.id)
      ensures State() == DirectMessageReady(old(State()), dm, threadScrolltop, messages)
    {
      fx := None;
      if current.None? || current.value.id != dm.id {
        var e := SetChannel(dm, threadScrolltop, messages, allHistoryLoaded);
        fx := Some(e);
      }
    }

    /** do_search_channel: one entry per channel found, labelled with its name. */
    method DoSearchChannel(hits: seq<ChannelHit>) returns (values: seq<Entry>)
      ensures |values| == |hits|
      ensures forall i :: 0 <= i < |hits| ==> values[i] == EntryOf(hits[i])
    {
      values := [];
      for i := 0 to |hits|
        invariant |values| == i
        invariant forall j :: 0 <= j < i ==> values[j] == EntryOf(hits[j])
      {
        values := values + [ChannelEntry(hits[i].id, hits[i].name, hits[i].name)];
      }
    }

    /** The source of the public-channel autocomplete: the channels found for
        the search text, then the option to create a channel of that name. */
    method ChannelSuggestions(lastSearch: string, hits: seq<ChannelHit>) returns (entries: seq<Entry>)
      ensures |entries| == |hits| + 1
      ensures forall i :: 0 <= i < |hits| ==> entries[i] == EntryOf(hits[i])
      ensures entries[|hits|] == CreateEntry(CreateLabel(lastSearch))
      ensures forall i :: 0 <= i < |entries| ==> (entries[i].CreateEntry? <==> i == |hits|)
    {
      entries := DoSearchChannel(hits);
      entries := entries + [CreateEntry(CreateLabel(lastSearch))];
    }
  }
}
