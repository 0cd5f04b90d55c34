# Chat client action: view-state bookkeeping

A Dafny model of the view-state bookkeeping inside `ChatAction`, the
discuss-app client action of the mail add-on
(`addons/mail/static/src/js/client_action.js`). The widget shows one channel at
a time. It keeps four pieces of state across channel switches and bus
notifications:

- a per-channel cache of thread scroll offsets (`channels_scrolltop`);
- the position of the "New messages" separator, memoised once per channel
  (`messages_separator_position`: undefined, `false`, `'top'` or a message id);
- snapshots of the entered channel's `unread_counter` and
  `last_seen_message_id`;
- the current channel.

Beside that state sit a few pure decision rules. They decide which
control-panel buttons and whether the composer are shown, how message
updates and new messages are routed, how the `anyone_listening` query is
answered, where a redirect goes, and what the public-channel autocomplete
offers and does.

Files:

- `types.dfy` (`ChatTypes`): channels, messages, the separator and the rendering options.
- `rules.dfy` (`ChatRules`): the pure decision rules.
- `view_state.dfy` (`ChatView`): the state as a value. It has one function per
  transition and the lemmas that state what each transition keeps, resets and
  removes.
- `chat_action.dfy` (`ChatClientAction`): the class `ChatAction`. Its fields are
  updated in place by methods, and each method is specified by the `ChatView`
  transition it performs.

Asynchronous `.then` chains are modelled as steps run in order inside one
method. For example, `SetChannel` stores and switches, then renders the
fetched thread, then runs what follows the render. Some values come from the
page or from the chat manager: the thread's current scroll offset, the message
lists that `chat_manager.get_messages` and `fetch_more` resolve to, the answer
of `all_history_loaded`, the users found for a partner and the channels found
by a search. All of these are parameters.

## Model

| member | source | states |
|---|---|---|
| `ChatView.SeparatorRule` | addons/mail/static/src/js/client_action.js:409-417 | The separator is never undefined once computed. It is `false` iff the unread counter is 0. It is `'top'` iff there are unread messages and either nothing was seen or the last seen message is not in the list. Otherwise it is exactly the last seen message id, which is then a message of the list. |
| `ChatView.MemoizeComputesOnce` | addons/mail/static/src/js/client_action.js:406-418 | A render fills an empty memo from the separator rule and keeps a filled memo. Either way the memo is filled afterwards, and nothing but the memo changes. |
| `ChatView.SeparatorSticky` | addons/mail/static/src/js/client_action.js:407-418 | Once the separator is set, `false` included, rendering with any sequence of message lists leaves the whole state unchanged. |
| `ChatView.FirstRenderDecides` | addons/mail/static/src/js/client_action.js:406-418 | With an empty memo, the first message list rendered decides the separator for every later render. |
| `ChatClientAction.FindWhere` | addons/mail/static/src/js/client_action.js:413 | Returns the index of the first message with the given id, or none iff no message has it. |
| `ChatClientAction.ChatAction.GetThreadRenderingOptions` | addons/mail/static/src/js/client_action.js:406-426 | Writes the separator memo as the render step does. Returns the current channel id, load-more iff history is not all loaded, the channel's needaction display, the memoised separator, and squashing iff the channel is not static. |
| `ChatView.SwitchSavesPrevious` | addons/mail/static/src/js/client_action.js:322-325 | The thread offset is stored under the previous channel's id, only when there is a previous channel. Every other cached entry is unchanged. |
| `ChatView.RestoreReadsAfterSave` | addons/mail/static/src/js/client_action.js:322-326 | The offset to restore is read after the save. Re-selecting the current channel restores the offset just saved, and any other channel gets its cached entry, if any. |
| `ChatView.SetChannelSnapshots` | addons/mail/static/src/js/client_action.js:326-331 | After `set_channel` and its render, the new channel is current. Both counters are snapshots of the new channel. The separator is the rule applied to the fetched thread. The cache is the one from the save. |
| `ChatClientAction.ChatAction.SetChannel` | addons/mail/static/src/js/client_action.js:320-377 | The new state is the switch followed by the render. Also states the restored offset, the rendering options, the empty-thread flag, the snackbar (only for non-static channels with needactions), mark-as-seen iff not static, and the control visibility. |
| `ChatRules.ControlsFor` | addons/mail/static/src/js/client_action.js:353-369 | Detach and composer are shown iff the type is not static. Invite, unsubscribe and settings are shown iff the type is neither dm nor static. Mark-read is shown iff the id is `channel_inbox`, and unstar-all iff the id is `channel_starred`. |
| `ChatRules.ControlsAgree` | addons/mail/static/src/js/client_action.js:353-369 | Composer, detach and `squash_close_messages` always agree. Invite implies detach. Mark-read and unstar-all are never shown together. |
| `ChatRules.UpdateButtonStatus` | addons/mail/static/src/js/client_action.js:436-447 | Only the flag of the button that matches the current special mailbox takes the new value. On any other channel both flags are kept. |
| `ChatView.LoadMoreRecomputesOnlyTop` | addons/mail/static/src/js/client_action.js:456-460 | Only a `'top'` separator is reset. It is then recomputed against the longer list, and it moves to the last seen message once that message is loaded. A message-id or `false` separator keeps the whole state. |
| `ChatClientAction.ChatAction.LoadMoreMessages` | addons/mail/static/src/js/client_action.js:449-464 | The new state is the `'top'` reset followed by the render, and the options are those of the new state. |
| `ChatRules.RouteNewMessage` | addons/mail/static/src/js/client_action.js:545-554 | The thread is refetched iff the current id is in `channel_ids`. The channel is marked seen iff in addition the channel is not static. |
| `ChatView.NewMessageEvicts` | addons/mail/static/src/js/client_action.js:545-559 | The cache loses exactly the keys in `channel_ids`, and every kept entry keeps its value. The current channel is unchanged, and a placed separator is not moved. |
| `ChatView.NewMessagesEvictTouched` | addons/mail/static/src/js/client_action.js:555-558 | After a stream of new messages, the cache is the old cache minus every channel any of them was posted in. |
| `ChatClientAction.ChatAction.OnNewMessage` | addons/mail/static/src/js/client_action.js:545-559 | The effects are the routing rule for the channel current before the call. The new state is the eviction followed by the render when refetching. |
| `ChatRules.RouteUpdate` | addons/mail/static/src/js/client_action.js:560-574 | Remove-and-render iff (starred mailbox and message not starred) or (inbox and message not needaction). Otherwise refetch iff the current id is in `channel_ids`, and otherwise nothing. |
| `ChatRules.RecordChannelRoutesAgree` | addons/mail/static/src/js/client_action.js:545-574 | On an ordinary channel, never remove-and-render. An update re-renders exactly when a new message would. |
| `ChatView.UpdateKeepsBookkeeping` | addons/mail/static/src/js/client_action.js:560-574 | With a separator already placed, an update leaves the whole state unchanged, whatever list is rendered. |
| `ChatClientAction.ChatAction.OnUpdateMessage` | addons/mail/static/src/js/client_action.js:560-574 | The route is the routing rule. Options are produced iff the route re-renders. The new state is the update transition. |
| `ChatClientAction.ChatAction.constructor` | addons/mail/static/src/js/client_action.js:129-136 | Starts with no channel, an empty scroll cache and an undefined separator. |
| `ChatClientAction.ChatAction.OnAttachCallback` | addons/mail/static/src/js/client_action.js:122-124 | Returns the cached offset of the current channel, or none when it has no entry. |
| `ChatClientAction.ChatAction.OnDetachCallback` | addons/mail/static/src/js/client_action.js:125-127 | The new state stores the thread offset under the current channel. |
| `ChatView.DetachAttachRoundTrip` | addons/mail/static/src/js/client_action.js:122-127 | Detaching and then attaching scrolls back to the offset saved at detach. |
| `ChatView.DetachThenReselect` | addons/mail/static/src/js/client_action.js:125-127 | After a detach, selecting the same channel again restores the offset that `set_channel` saves at that moment. |
| `ChatView.UnsubscribeDropsEntry` | addons/mail/static/src/js/client_action.js:391-404 | The inbox is shown afterwards. The unsubscribed channel has no entry, even if it was current. A different previous channel keeps the offset just saved. Every other key stays, and every other value is unchanged. |
| `ChatClientAction.ChatAction.UnsubscribeFromChannel` | addons/mail/static/src/js/client_action.js:391-404 | The new state is the unsubscribe transition: switch to the inbox, then delete the entry. The notification is shown iff the channel is public or private. |
| `ChatRules.AnyoneListening` | addons/mail/static/src/js/client_action.js:213-215 | A displayed query stays displayed. A query that was not displayed becomes displayed iff it asks about the current channel. |
| `ChatRules.AskListenersAny` | addons/mail/static/src/js/client_action.js:213-215 | Passed through several listeners, the query ends up displayed iff it was displayed at the start or some listener shows the asked channel. |
| `ChatRules.RedirectTarget` | addons/mail/static/src/js/client_action.js:513-528 | Opens a direct conversation iff the model is `res.partner` and the partner's first user exists and is not the current user. Every other model opens the record's form. |
| `ChatView.ShownDirectMessageKeepsState` | addons/mail/static/src/js/client_action.js:516-521 | When the direct conversation is already the current channel, nothing is reset. |
| `ChatClientAction.ChatAction.OnDirectMessageReady` | addons/mail/static/src/js/client_action.js:517-521 | Switches iff there is no channel or another channel is shown. The new state is that transition. |
| `ChatRules.EntryOf` | addons/mail/static/src/js/client_action.js:296-300 | A search hit becomes a channel entry with the hit's id, and its value is the hit's name. |
| `ChatClientAction.ChatAction.DoSearchChannel` | addons/mail/static/src/js/client_action.js:292-304 | One entry per hit, in order, each the entry of that hit. |
| `ChatClientAction.ChatAction.ChannelSuggestions` | addons/mail/static/src/js/client_action.js:232-240 | The hits' entries in order, followed by exactly one create option, which is the last entry and is labelled with the search text. |
| `ChatRules.SelectAsWritten` | addons/mail/static/src/js/client_action.js:242-250 | As written: no action for an empty search. Creates a public channel named after the search text when the entry's value is `'_create'`. Otherwise joins the entry's channel. |
| `ChatRules.SelectAsWrittenMisreadsChannel` | addons/mail/static/src/js/client_action.js:235-247 | A found channel named `_create` is taken for the create option. |
| `ChatRules.Select` | addons/mail/static/src/js/client_action.js:242-250 | Corrected: the create option is recognised by its kind of entry, and a channel entry always joins its channel. |
| `ChatRules.SelectJoinsEveryHit` | addons/mail/static/src/js/client_action.js:242-250 | With a non-empty search, selecting the entry of any hit joins that very channel, whatever its name. |
| `ChatRules.SelectAgreesAwayFromSentinel` | addons/mail/static/src/js/client_action.js:242-250 | The corrected and the as-written handlers agree on every entry except a channel whose name is `_create`. |

## Findings

| source | as written | input that shows it | evidently intended | confidence | as-written member | corrected member |
|---|---|---|---|---|---|---|
| addons/mail/static/src/js/client_action.js:244 | The autocomplete select handler recognises the create option by `ui.item.value === '_create'`, but each found channel's entry carries `value: channel.name` (line 298). | Type "gen" and have the search return the channel `{id: 7, name: "_create"}`. Selecting that channel creates a new public channel "gen" instead of joining channel 7. | Selecting a found channel joins it. Only the appended option creates. | low; not executed | `ChatRules.SelectAsWritten` with `ChatRules.SelectAsWrittenMisreadsChannel` | `ChatRules.Select` with `ChatRules.SelectJoinsEveryHit` |

## Left out

- Rendering and page effects are not modelled: QWeb templates, jQuery class toggling, select2 and the autocomplete widgets, `slideToggle`, hiding the sidebar on small screens, composer focus, and the undo snackbar with its 20-second timeout. The model keeps only the decisions: the visibility flags, the snackbar count and the offset passed to `scroll_to`.
- The disabled flags of the mark-read and unstar-all buttons are page state, so they are not fields of `ChatAction`. `SetChannel` reports the empty-thread argument, and `ChatRules.UpdateButtonStatus` gives the effect.
- Remote calls are not modelled: `im_search`, `channel_invite`, `channel_search_to_join`, the users search, and the whole `PartnerInviteDialog`. Their answers, where a rule depends on them, are parameters.
- The direct-message autocomplete (`do_search_partner`) and the private-channel keyup handler are not modelled. They are UI wiring around remote calls.
- The chat manager is not modelled: its messages, counters, `mark_all_as_read`, `mark_channel_as_seen`, `all_history_loaded`, unsubscribe and channel creation. Message lists and the history flag are inputs. Its calls appear only as boolean effects.
- The pixel-offset arithmetic of `load_more_messages` is not modelled, because it depends on the page layout.
- Interleaving of promise continuations is not modelled. For example, a second `set_channel` could start before the first one's fetch resolves. Each chain runs to completion as one method.
- Search domains (`on_search` with `pyeval`), `do_push_state`, breadcrumbs, the control-panel update and `action.context.active_id` are not modelled. They are calls into the web framework.
- The following handlers outside the bookkeeping are not modelled: the default channel chosen in `start`, `on_new_channel`, `redirect_to_channel`, `on_post_message`, `on_composer_input_focused`, the button click handlers and the snackbar undo.
- JavaScript turns object keys into strings, so a numeric channel id 5 and a string id "5" would share one cache entry. The model keys the cache by `ChannelId` values, which keeps them apart.
- Falsy values: `unread_counter` that is undefined, null or NaN counts as 0. A `last_seen_message_id` that is undefined counts as `false`, because no message has id undefined and the rule gives `'top'` in both cases.
- Translation (`_t`) and `_.escape` are not modelled. The create label is the English text, and the search text is taken as already escaped.
- Methods that read `this.channel.id` require a current channel. The widget only calls them after `start` has set one, and before that point the JavaScript would throw.
