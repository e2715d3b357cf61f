# mautrix-slack connector core, modelled in Dafny

This project models the three decision cores of the Slack connector of mautrix-slack, a Matrix–Slack puppeting bridge.

- **Inbound event translator** (`pkg/connector/handleslack.go`, module `SlackEvents` in `handleslack.dfy`). Every event of Slack's real-time (RTM) stream is sorted into one of:
  - a session action (send a bridge state, or invalidate the session);
  - a normalized remote event for the bridge's queue;
  - an intentional ignore;
  - an "unrecognized" warning.

  Chat events are wrapped in an envelope: kind, portal key, sender, message ID, timestamp, log decorator and the create-portal flag. Then the payload of their kind is added.
- **Outbound command dispatcher** (`pkg/connector/handlematrix.go`, module `MatrixHandlers` in `handlematrix.dfy`). Each Matrix action becomes at most one Slack web-API call, behind the same guards:
  - no client means not logged in;
  - an undecodable portal or message ID is an error;
  - read receipts and typing do nothing for a login that is not a real Slack user.

  `sendToSlack` picks one of three payload kinds in a fixed priority order. It records a pending transaction on the incoming message when an upload's message is not yet visible. The message is a class whose `AddPendingToSave` updates it in place.
- **Session lifecycle and channel sync** (`pkg/connector/client.go`, modules `Session` in `client.dfy` and `ChannelSync` in `channel_sync.dfy`).
  - `UserLogin`, `SlackClient` and the bridge are classes, and their methods update fields: the nullable client and RTM handles, the credential map, the sent bridge states, the queued events and the portal operations.
  - `SyncChannels` is proved stage by stage:
    - a paginated fetch under a shrinking budget;
    - a map keyed by channel ID that excludes closed DMs;
    - removal of every channel whose portal already has a room;
    - enumeration of the map into an array;
    - an in-place sort by last-read timestamp;
    - one room creation per remaining channel.

Shared types (results, errors, portal keys, bridge states, Slack channels) are in `slack_types.dfy`. The identifier codec of package `slackid` is not part of this model; it is carried as a record of uninterpreted functions (`SlackTypes.Codec`), and nothing is assumed about its round trips. The Go helpers used for formatting and ordering are in `strings.dfy` (module `Strings`): `%d`, `strings.ReplaceAll`, `strings.HasPrefix` and `cmp.Compare` on strings.

Collaborators are parameters, or function-valued fields of the `Env`, `SlackApi` and `Services` records. Each one returns a value or an error. They are:

- the Slack web API;
- the content converter;
- the emoji tables;
- the portal directory;
- the bridge database;
- the chat-info fetch;
- `time.Now()`.

A Go nil dereference is modelled as an explicit error result (`NilClientPanic`, `NilEmojiPanic`) rather than as a precondition.

## Model

| member | source | states |
|---|---|---|
| SlackEvents.Dispatch | pkg/connector/handleslack.go:36-99 | The session is invalidated exactly on InvalidAuth ("slack-invalid-auth", BadCredentials) or on a Connected event whose team or user differs from the session's ("slack-id-mismatch", UnknownError). StateConnected is sent only for a matching Connected event. An RTM error sends UnknownError with "slack-rtm-error-<code>" and "<code>: <msg>". A chat event is queued exactly when `wrapEvent` succeeds and dropped exactly when it fails. Hello, EmojiChanged and the duplicate kinds are ignored. Only unrecognized types warn. |
| SlackEvents.RtmErrorCodesDistinct | pkg/connector/handleslack.go:69-75 | Different RTM error codes yield different bridge-state error codes. |
| Strings.IntToDecimalRoundTrip | pkg/connector/handleslack.go:72-74 | The `%d` rendering of an integer reads back as that integer. |
| Strings.NatToDecimalRoundTrip | pkg/connector/handleslack.go:72-74 | The decimal digits of a natural number read back as that number. |
| SlackEvents.WrapEvent | pkg/connector/handleslack.go:102-181 | Fails exactly when a channel update's chat-info fetch fails or the envelope fails. A wrapped event keeps the envelope `MakeEventMeta` built from the event's channel, sender and timestamp: its portal key, sender, ID and timestamp are those of that envelope. The kind matches the independent event-to-kind table (`ExpectedType`). CreatePortal holds exactly for Message, ChannelJoined, GroupJoined and ChannelUpdate. A message carries its raw data and the message log decorator; every other kind keeps the nil decorator. A reaction is exactly `WrapReaction` of the envelope. Join and leave events carry one member with join/none or leave/join. Marked events are read receipts whose sender is the session's own user. A channel update carries the freshly fetched chat info. |
| SlackEvents.WrapWithMetaPayload | pkg/connector/handleslack.go:109-178 | Given an envelope, a reaction is wrapped by `wrapReaction`, typing as a typing notice, the marked events as read receipts, joins and leaves as one member change with the envelope's sender, and a channel update as a full chat-info change carrying the given info. |
| SlackEvents.WrapReaction | pkg/connector/handleslack.go:183-211 | The kind is Reaction for an add and ReactionRemove otherwise. The emoji ID and name are the raw name, and the shortcode is ":name:". An mxc entry exists iff the emoji is an image. The shown emoji is the shortcode iff it is an image and custom-emoji reactions are off. The target is `MakeMessageID(team, item channel, item timestamp)`. |
| SlackEvents.WrapTyping | pkg/connector/handleslack.go:213-217 | A typing event of kind Typing; the envelope is otherwise unchanged. |
| SlackEvents.WrapReadReceipt | pkg/connector/handleslack.go:219-223 | A read receipt of kind ReadReceipt; the envelope is otherwise unchanged. |
| SlackEvents.WrapMemberChange | pkg/connector/handleslack.go:225-237 | A chat-info change of kind ChatInfoChange carrying exactly one member: the given sender with the new and previous membership. The envelope is otherwise unchanged. |
| SlackEvents.MakeEventMeta | pkg/connector/handleslack.go:239-261 | An inline channel gives the portal key. Otherwise the directory lookup gives it, and a lookup error or an empty key is an error ("unknown channel"), so no key is ever invented. The sender is set iff the sender ID is non-empty. ID and timestamp are set iff the timestamp string is non-empty. |
| SlackEvents.MetaTimestamp | pkg/connector/handleslack.go:293-298 | Returns "now" iff the stored timestamp is zero, and the stored timestamp otherwise. |
| SlackEvents.MessageType | pkg/connector/handleslack.go:392-407 | message_changed maps to Edit, message_deleted to Remove, topic/purpose/name subtypes to ChatInfoChange, and replied/join/leave subtypes to Unknown. Every other subtype maps to Message. Each direction is stated as an iff. |
| SlackEvents.MessageTimestamp | pkg/connector/handleslack.go:420-429 | The edited message's timestamp for a change, the deletion timestamp for a deletion, and the envelope timestamp otherwise. |
| SlackEvents.EventType | pkg/connector/handleslack.go:273-275 | A queued message answers from its subtype table (`MessageType`); every other event answers its envelope's kind. |
| SlackEvents.EventTimestamp | pkg/connector/handleslack.go:293-298 | A queued message answers `MessageTimestamp`; every other event answers `MetaTimestamp`, so only a message can report the zero time. |
| SlackEvents.WrappedEventTimestamp | pkg/connector/handleslack.go:239-261 | For a wrapped chat event: events without a Slack timestamp (typing, joins, member changes) report "now"; other non-message events report the parsed timestamp, or "now" when it parses to zero; a message without a timestamp reports the zero time; an edit or deletion reports the edit's or deletion's own timestamp. |
| MatrixHandlers.ShareTimestamp | pkg/connector/handlematrix.go:93-99 | The first private share in the channel if there is one, else the first public share, else none. |
| MatrixHandlers.SendPlan | pkg/connector/handlematrix.go:75-118 | Uses the send request if present, else the upload, else the share, and makes exactly that one call. The post and share paths return the timestamp Slack answered, or its error unchanged. No payload is the "no message or attachment" error with no call. An upload error is propagated. An upload returns its share timestamp; without a visible share it returns "" and records the pending transaction "<user>:<file>" iff there is a message. |
| MatrixHandlers.SendPlanMakesAtMostOneCall | pkg/connector/handlematrix.go:82-117 | At most one remote call is made, and exactly one iff there is any payload. |
| MatrixHandlers.SendToSlack | pkg/connector/handlematrix.go:75-118 | Returns the plan's timestamp or error. The message's pending list grows by exactly the plan's pending transaction. |
| MatrixHandlers.MatrixMessage.AddPendingToSave | pkg/connector/handlematrix.go:104 | The transaction ID is appended to the message's pending list; nothing is dropped. |
| MatrixHandlers.MessageResult | pkg/connector/handlematrix.go:47-73 | Not logged in, then "invalid channel ID", then a converter error, then the send's error, in that order. On success, Pending iff the timestamp is empty; otherwise the stored message has ID `MakeMessageID(team, channel, ts)`, sender `MakeUserID(team, user)` and the parsed timestamp, where ts is the one `SendPlan` got from Slack. |
| MatrixHandlers.HandleMatrixMessage | pkg/connector/handlematrix.go:47-73 | Returns `MessageResult`. The message gains the pending transaction only after all guards and the conversion have passed. |
| MatrixHandlers.HandleMatrixEdit | pkg/connector/handlematrix.go:120-134 | The same guards as a message. It sends with no message, so no pending transaction is ever recorded, and the send's error is returned. |
| MatrixHandlers.HandleMatrixMessageRemove | pkg/connector/handlematrix.go:136-146 | Not logged in, or "invalid message ID" with no call. Otherwise one delete of the decoded channel and timestamp, whose error is propagated. |
| MatrixHandlers.PreHandleMatrixReaction | pkg/connector/handlematrix.go:148-171 | A key with ':' is resolved by MXC through the emoji table; a key without ':' is resolved by shortcode, and an empty shortcode is "unknown emoji". The sender is `MakeUserID(team, user)`. It never dereferences a missing row, and it agrees with the code as written wherever that succeeds. |
| MatrixHandlers.PreHandleMatrixReactionAsWritten | pkg/connector/handlematrix.go:148-171 | The code as written: a key with ':' succeeds iff the emoji table returns a row, and otherwise fails with the nil-row dereference; a key without ':' succeeds iff it has a shortcode, and otherwise is "unknown emoji". The sender is `MakeUserID(team, user)`. |
| MatrixHandlers.PreHandleDbErrorPanics | pkg/connector/handlematrix.go:152-157 | As written, a failed emoji lookup for a key with ':' dereferences the nil row. |
| MatrixHandlers.PreHandleMissingRowPanics | pkg/connector/handlematrix.go:152-157 | As written, a lookup that finds no row does the same. |
| MatrixHandlers.HandleMatrixReaction | pkg/connector/handlematrix.go:173-186 | The not-logged-in and message-ID guards apply. Then one add of the pre-resolved emoji to the decoded message, whose error is propagated. |
| MatrixHandlers.HandleMatrixReactionRemove | pkg/connector/handlematrix.go:188-204 | The same guards, then one removal. The result is nil iff the call succeeded or its error text is exactly "reaction"; any other error is propagated. |
| MatrixHandlers.HandleMatrixReadReceipt | pkg/connector/handlematrix.go:206-230 | Not logged in is an error. A non-real user gets nil with no call. An exact message is marked directly. Otherwise the last message at or before the read-up-to time is marked, and nil is returned when there is none. Each mark is one call whose error is returned. A database error is propagated and a bad ID is "invalid message ID". At most one mark call is made. |
| MatrixHandlers.HandleMatrixTyping | pkg/connector/handlematrix.go:232-244 | Not logged in is an error. Otherwise never an error. A typing indicator is sent iff the user is real and the portal decodes to a channel. |
| MatrixHandlers.HandleMatrixRoomName | pkg/connector/handlematrix.go:246-254 | "invalid channel ID" with no call. There is no logged-in guard, so a nil client dereferences. Otherwise one rename whose error is propagated, and the boolean is true iff there is no error. |
| MatrixHandlers.HandleMatrixRoomTopic | pkg/connector/handlematrix.go:256-264 | The same as the room name, for the topic. |
| MatrixHandlers.NotLoggedInBeforeAnyCall | pkg/connector/handlematrix.go:47-244 | With no client, the message, remove, reaction, reaction-remove, receipt and typing handlers all fail with not-logged-in before any call. |
| Session.LoadUserLogin | pkg/connector/client.go:56-82 | Team and user come from the login ID. A client and its RTM exist iff the stored token is a string, built from the token and the cookie. A failed team-portal lookup returns "failed to get team portal" and installs no client. |
| Session.MakeSlackClient | pkg/connector/client.go:45-54 | The client carries the token, and a "d" cookie exactly when the cookie token is non-empty. |
| Session.ReloadAfterInvalidationHasClient | pkg/connector/client.go:58-73 | After invalidation the stored token is the empty string, which is still a string, so loading again builds a client with an empty token. |
| Session.SlackClient.IsLoggedIn | pkg/connector/client.go:253-255 | Logged in iff there is a client. |
| Session.BootFailureAction | pkg/connector/client.go:104-119 | "invalid_auth" invalidates with BadCredentials and "slack-invalid-auth". "user_removed_from_team" invalidates with "slack-user-removed-from-team". Any other error sends UnknownError "slack-unknown-fetch-error" with "Unknown error from Slack: <text>". |
| Session.SlackClient.Connect | pkg/connector/client.go:103-121 | A boot failure is returned in both cases. It invalidates the session (blanking and saving the credentials once) only for the two credential errors; otherwise the client, credentials and saved snapshots stay. On failure no background task starts and the team portal, the boot response and the bridge are untouched. A successful boot continues as `connect` and leaves the login's credentials, snapshots and states alone. |
| Session.SlackClient.ConnectWith | pkg/connector/client.go:123-134 | Stores the boot response. The four background tasks start only when the team-portal sync succeeded, and its error is returned. |
| Session.TeamPortalSync | pkg/connector/client.go:136-147 | Creates the team room with the team info iff it has no room; otherwise updates its info. The only error is a failed creation, which leaves the portal as it was. |
| Session.SlackClient.SyncTeamPortal | pkg/connector/client.go:136-147 | Performs `TeamPortalSync` on the portal log and the team portal. |
| Session.SlackClient.Disconnect | pkg/connector/client.go:241-251 | Afterwards there is no RTM and no client and the session is not logged in. An RTM disconnect error is never returned. Nothing else changes. |
| Session.InvalidatedExtra | pkg/connector/client.go:265-266 | Both tokens become "". Every other credential entry is unchanged. |
| Session.SlackClient.InvalidateSession | pkg/connector/client.go:264-273 | Blanks both tokens, saves the login (a failed save changes nothing else), disconnects, and then sends exactly the given state. |
| Session.SlackClient.HandleSlackEvent | pkg/connector/handleslack.go:36-99 | Carries out `Dispatch`. It queues the wrapped event, sends the state, or invalidates the session (blank, save once, drop the client). Nothing else changes: portal operations, tasks, team portal, boot response and the login's client pointer stay. |
| Session.SlackClient.ConsumeEvents | pkg/connector/client.go:235-239 | Handling a stream in order queues exactly the events, and sends exactly the states, that dispatching each event in turn yields. Afterwards the credentials are blanked and the client is gone iff some event invalidated the session, one blanked snapshot is saved per invalidating event, and nothing else changes. |
| Session.InvalidatesAnyExactly | pkg/connector/handleslack.go:44-68 | A stream invalidates the session iff one of its events is InvalidAuth or a Connected event for another team or user, iff it saves a snapshot; every snapshot is the blanked credential map. |
| Session.InvalidatedExtraIdempotent | pkg/connector/client.go:265-266 | Blanking the credentials twice is blanking them once. |
| Session.AfterStreamQueues | pkg/connector/client.go:235-239 | Handling a stream event by event queues exactly `QueuedFrom` and sends exactly `StatesFrom` of the stream. |
| Session.AfterStreamCredentials | pkg/connector/client.go:235-239 | Handling a stream event by event blanks the credentials and drops the client iff some event invalidated the session, and saves one blanked snapshot per invalidating event. |
| Session.QueuedOnlyWrapped | pkg/connector/handleslack.go:76-86 | Only chat events that wrap successfully reach the queue, at most one per event. |
| ChannelSync.RequestLimit | pkg/connector/client.go:158-161 | A request asks for 100 while more than 200 conversations remain, and exactly the remaining budget otherwise; so always between 1 and the budget and never more than 200. |
| ChannelSync.AddOpenKeys | pkg/connector/client.go:172-178 | After a page, the candidate IDs are the old ones plus the IDs of the page's channels that are not closed DMs. |
| ChannelSync.AddOpenValues | pkg/connector/client.go:172-178 | Every candidate is either an untouched old entry or a non-closed-DM channel of the page, stored under its own ID. |
| ChannelSync.FetchFrom | pkg/connector/client.go:157-184 | Stops at a budget of zero or less. Otherwise the request uses `RequestLimit` and the current cursor: a failed request abandons the fetch; a page with an empty next cursor or no channels, or one that uses up the budget, ends it with the page's kept channels added; otherwise the next request uses the page's cursor and the budget less the page size. Every limit is between 1 and the budget and at most 200. The map stays keyed by ID with no closed DMs. |
| ChannelSync.FetchFromAnswered | pkg/connector/client.go:157-184 | Every request of the fetch but the last was answered with a page. |
| ChannelSync.FetchFromAbandons | pkg/connector/client.go:166-169 | The fetch is abandoned exactly when its last request failed. |
| ChannelSync.FetchFromKeys | pkg/connector/client.go:157-184 | A completed fetch holds exactly the old candidates plus the IDs of the kept channels of every fetched page. |
| ChannelSync.AddOpenConcat | pkg/connector/client.go:172-178 | Storing one page and then another into the map is the same as storing their concatenation. |
| ChannelSync.AddOpenLatest | pkg/connector/client.go:172-178 | For an ID some kept channel carries, the stored entry is the last kept channel with that ID: later channels overwrite earlier ones. |
| ChannelSync.FetchFromChannels | pkg/connector/client.go:157-184 | A completed fetch's map, keys and values, is exactly the old map with the channels of every answered page stored in request order. |
| ChannelSync.ServerChannels | pkg/connector/client.go:151-185 | An "xoxs" token makes no request. Otherwise the first request uses the configured count's limit and the empty cursor. No limit exceeds the configured count or 200. Every request but the last was answered; the sync is abandoned iff the last request failed; otherwise the candidate map is exactly the kept channels of all fetched pages stored in order, keys and values. Each entry is a fetched channel under its own ID, and a later page's channel replaces an earlier one. |
| ChannelSync.StorePage | pkg/connector/client.go:172-178 | The inner loop stores exactly what `AddOpen` stores for the page: every channel that is not a closed DM goes under its ID, a later one replacing an earlier one. |
| ChannelSync.FetchServerChannels | pkg/connector/client.go:151-185 | The loop makes exactly the requests and collects exactly the map of `ServerChannels`, or reports the abort. |
| ChannelSync.UnclaimedKeys | pkg/connector/client.go:191-212 | A candidate survives reconciliation iff no user portal whose existing portal has a room names its channel; survivors are unchanged. |
| ChannelSync.RefreshesOnlyRooms | pkg/connector/client.go:191-212 | Only user portals with a room and loadable chat info are refreshed, at most once each. Conversely, every such portal gets its `UpdateInfo` with that chat info. Each portal adds its own refresh in its own place, whatever the portals around it do. |
| ChannelSync.ReconcileExisting | pkg/connector/client.go:191-212 | The loop yields exactly the surviving candidates and the refreshes. |
| ChannelSync.CollectRemaining | pkg/connector/client.go:213-218 | The new array lists every remaining candidate once, in the map's (arbitrary) order. |
| ChannelSync.SortByLastRead | pkg/connector/client.go:219-221 | The array ends sorted by `cmp.Compare` of last-read timestamps and is a permutation of what it held. |
| Strings.CompareTransitive | pkg/connector/client.go:219-221 | `cmp.Compare` on strings is a transitive order. |
| Strings.CompareAntisymmetric | pkg/connector/client.go:219-221 | Swapping the operands of `cmp.Compare` flips the sign. |
| ChannelSync.CreationsOnePerChannel | pkg/connector/client.go:222-232 | At most one creation per channel. Each channel adds its own creation in its own place, whatever the channels around it do, so a failed lookup never stops later channels. Every channel whose lookup succeeds gets its room. When every lookup succeeds, there is exactly one creation per channel, in order. |
| ChannelSync.CreationsAllFound | pkg/connector/client.go:222-232 | At most one creation per channel, and exactly one per channel, in order, when every portal lookup succeeds. |
| ChannelSync.CreateRooms | pkg/connector/client.go:222-232 | The loop yields exactly `Creations` of the sorted channels. |
| Session.SlackClient.SyncChannels | pkg/connector/client.go:149-233 | A failed fetch or portal listing touches no portal. Otherwise the portal operations are the refreshes followed by one creation per surviving candidate. The creations follow some enumeration of the survivors sorted by last-read. |

## Left out

- Concurrency: `connect` starts `consumeEvents`, `RTM.ManageConnection`, `SyncEmojis` and `SyncChannels` as goroutines. The model records that they were started (`SlackClient.tasks`). `ConsumeEvents` is a sequential fold over a given event sequence, and `SyncChannels` is a separate method. Interleavings are not modelled.
- The `slackid` codec bodies are not part of this model. `Codec` is uninterpreted, and no round trip or injectivity is claimed.
- Collaborators are modelled only as oracle results:
  - slack-go calls;
  - the `MsgConv.ToSlack` converter;
  - `emoji.GetShortcode` and the custom-emoji table;
  - `GetEmoji`, `fetchChatInfo`, `GetChatInfo`, `makePortalKey`, `makeEventSender` and `getTeamInfo`;
  - bridgev2 portal and database queries, and `CreateMatrixRoom`.

  Each is a function of its arguments, so repeated calls with the same arguments agree.
- `time.Now()` in `GetTimestamp` is the parameter `now` of `SlackEvents.MetaTimestamp`.
- `SlackMessage.ConvertMessage`, `ConvertEdit` (panics) and `GetChatInfoChange` (an empty switch) are not modelled. The remaining accessors are not modelled separately: `GetPortalKey`, `GetSender`, `GetID`, the receipt, typing and reaction getters, and `GetReactionExtraContent`. Each only reads a field the model exposes directly.
- SlackEvents.WrapEvent: when the envelope fails, the Go code still returns the partially built event together with the error. The model returns only the error, because the caller drops the event in that case.
- SlackEvents.WrapEvent: the envelope is a value. The Go code mutates a shared `*SlackEventMeta` through the wrappers, and that aliasing is not modelled.
- Logging is not modelled: the zerolog calls, `pkg/connector/slacklog.go`, the trace dumps of API responses, and the human-readable error table in `init` (client.go:37-43).
- `LogoutRemote`, `IsThisUser` and `GetClient` are not modelled. They are not part of the modelled core.
- `pkg/connector/startchat.go`, `cmd/mautrix-slack/main.go` and `pkg/connector/slackdb/database.go` are not part of this model. They are I/O plumbing around the core.
- Session.SlackClient.SyncChannels: the conversation-list oracle does not look at the client handle. This method is started only after a successful boot, so the nil-client case is not modelled here.
- Session.SlackClient.SyncChannels: the existing-portal lookup is modelled as a portal or an error, never a missing portal. A nil portal with no error would be dereferenced in the Go code; the lookup's code is not part of this model.
- Strings.Compare: compares code points, while Go's `cmp.Compare` on strings compares bytes. The two orders agree only on valid UTF-8. `ChannelSync.SortByLastRead` compares Slack timestamps, which are ASCII digits and a dot, so there they agree.
- ChannelSync.CollectRemaining: Go's random map iteration order is modelled by an arbitrary choice of key. `SortByLastRead` is a selection sort; like `slices.SortFunc`, it promises only sortedness and a permutation, with ties in any order.
- The Go range variable `&channel` in the fetch loop is taken as per-iteration, as in Go 1.22 and later. Under earlier semantics every map entry would alias the last channel of the page.
- `IsRealUser` is read by the handlers but is not declared in the `SlackClient` struct shown in client.go. It is the `isRealUser` flag of `MatrixHandlers.SessionView`.
- The RTM typing message in `HandleMatrixTyping` is recorded as a call; the RTM connection's own behaviour is not modelled.

## Findings

| source | as written | input that shows it | evidently intended | confidence | as-written member | corrected member |
|---|---|---|---|---|---|---|
| pkg/connector/handlematrix.go:153-157 | When the emoji lookup fails, the error is wrapped but the nil row is still read (`dbEmoji.EmojiID`), which panics. | A reaction key containing ':' (an MXC URI) while the emoji table returns an error. | Return the wrapped "failed to get emoji from db" error. | high (not executed) | MatrixHandlers.PreHandleDbErrorPanics | MatrixHandlers.PreHandleMatrixReaction |
| pkg/connector/handlematrix.go:153-157 | When the lookup finds no row, the nil row is read as well. | A reaction key containing ':' whose MXC URI is not in the emoji table, where the query returns no row and no error. | Report the key as an unknown emoji. | medium (not executed; depends on the lookup returning no row without an error) | MatrixHandlers.PreHandleMissingRowPanics | MatrixHandlers.PreHandleMatrixReaction |
