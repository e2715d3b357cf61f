/** The inbound half of the connector: every event of Slack's real-time stream is
    sorted into a session action (a bridge state to send, or an invalidation), a
    normalized remote event for the bridge's queue, an intentional ignore, or an
    "unrecognized" warning. The normalized events carry an envelope (`EventMeta`)
    plus the payload of their kind. Collaborators (the portal directory, the emoji
    cache, the chat-info fetch) are functions in `Env`. */
module SlackEvents {
  import opened SlackTypes
  import opened Strings

  // ---------------------------------------------------------------------------
  // Raw Slack events

  /** The fields of `slack.MessageEvent` the connector reads. `subMessageTimestamp`
      is `SubMessage.Timestamp`, the timestamp of the edited message. */
  datatype SlackMsg = SlackMsg(
    channel: string, user: string, timestamp: string, subType: string,
    subMessageTimestamp: string, deletedTimestamp: string)

  /** `slack.ReactionItem`: the reacted-to message. */
  datatype ReactionItem = ReactionItem(channel: string, timestamp: string)

  /** The event types that are dropped on purpose because they duplicate other
      events or carry nothing useful. */
  datatype DuplicateKind =
    | FileShared | FilePublic | FilePrivate | FileCreated | FileChange | FileDeleted
    | DesktopNotification | ReconnectUrl | LatencyReport

  /** The events the RTM connection delivers, one constructor per Go event type the
      connector distinguishes; anything else is `UnrecognizedEvent`. */
  datatype RtmEvent =
    | ConnectingEvent(attempt: int, connectionCount: int)
    | ConnectedEvent(teamID: string, userID: string)
    | HelloEvent
    | InvalidAuthEvent
    | RTMError(code: int, msg: string)
    | MessageEvent(data: SlackMsg)
    | ReactionAddedEvent(user: string, reaction: string, item: ReactionItem, eventTimestamp: string)
    | ReactionRemovedEvent(user: string, reaction: string, item: ReactionItem, eventTimestamp: string)
    | UserTypingEvent(channel: string, user: string)
    | ChannelMarkedEvent(channel: string, timestamp: string)
    | IMMarkedEvent(channel: string, timestamp: string)
    | GroupMarkedEvent(channel: string, timestamp: string)
    | ChannelJoinedEvent(channelInfo: Channel)
    | ChannelLeftEvent(channel: string, timestamp: string)
    | GroupJoinedEvent(channelInfo: Channel)
    | GroupLeftEvent(channel: string, timestamp: string)
    | MemberJoinedChannelEvent(channel: string, user: string)
    | MemberLeftChannelEvent(channel: string, user: string)
    | ChannelUpdateEvent(channel: string, timestamp: string)
    | EmojiChangedEvent
    | DuplicateEvent(kind: DuplicateKind)
    | UnrecognizedEvent(typeName: string)

  /** The event types that carry chat content and go through `wrapEvent`. */
  predicate IsChatEvent(evt: RtmEvent) {
    || evt.MessageEvent? || evt.ReactionAddedEvent? || evt.ReactionRemovedEvent?
    || evt.UserTypingEvent? || evt.ChannelMarkedEvent? || evt.IMMarkedEvent? || evt.GroupMarkedEvent?
    || evt.ChannelJoinedEvent? || evt.ChannelLeftEvent? || evt.GroupJoinedEvent? || evt.GroupLeftEvent?
    || evt.MemberJoinedChannelEvent? || evt.MemberLeftChannelEvent?
    || evt.ChannelUpdateEvent?
  }

  // ---------------------------------------------------------------------------
  // Normalized events

  /** bridgev2's `RemoteEventType`; `RemoteEventUnknown` is the zero value. */
  datatype RemoteEventType =
    | RemoteEventUnknown | RemoteEventMessage | RemoteEventEdit | RemoteEventMessageRemove
    | RemoteEventReaction | RemoteEventReactionRemove | RemoteEventTyping
    | RemoteEventReadReceipt | RemoteEventChatInfoChange

  /** The envelope's log decorator: a nil function (the zero value), or the message
      decorator that adds the message timestamp and sender. */
  datatype LogContext = NilLogContext | MessageLogContext(timestamp: string, sender: string)

  /** `SlackEventMeta`. `id == ""` and `timestamp == ZeroTime` are the unset values. */
  datatype EventMeta = EventMeta(
    kind: RemoteEventType, portalKey: PortalKey, sender: EventSender, timestamp: Time,
    id: string, logContext: LogContext, createPortal: bool)

  /** `event.Membership`: "" (none), "join" or "leave". */
  datatype Membership = NoMembership | MembershipJoin | MembershipLeave

  datatype ChatMember = ChatMember(sender: EventSender, membership: Membership, prevMembership: Membership)

  /** `bridgev2.ChatInfoChange`: either a member list or a full chat-info refresh. */
  datatype ChatInfoChange = MemberChanges(members: seq<ChatMember>) | FullChatInfo(info: ChatInfo)

  /** The reaction's extra content: the "com.beeper.reaction.shortcode" entry and the
      "fi.mau.slack.reaction" object with its "name" and optional "mxc". */
  datatype ReactionExtra = ReactionExtra(shortcode: string, name: string, mxc: Option<string>)

  /** The wrapped events the connector queues. */
  datatype RemoteEvent =
    | SlackMessage(meta: EventMeta, data: SlackMsg)
    | SlackReaction(meta: EventMeta, targetID: string, emojiID: string, emoji: string, extra: ReactionExtra)
    | SlackTyping(meta: EventMeta)
    | SlackReadReceipt(meta: EventMeta)
    | SlackChatInfoChange(meta: EventMeta, change: ChatInfoChange)

  /** The session's identity and the collaborators the translator consults. */
  datatype Env = Env(
    codec: Codec,
    teamID: string,
    userID: string,
    loginID: string,
    findPortalReceiver: (string, string) -> Result<PortalKey, ApiError>,  // (portal ID, login ID)
    makePortalKey: Channel -> PortalKey,
    makeEventSender: string -> EventSender,
    getEmoji: string -> (string, bool),                                   // (emoji, isImage)
    fetchChatInfo: string -> Result<ChatInfo, ApiError>,
    customEmojiReactions: bool)

  // ---------------------------------------------------------------------------
  // Envelope

  /** `makeEventMeta`: resolve the room, the sender, the message ID and the timestamp.
      The room comes from the inline channel descriptor when there is one; otherwise
      from the portal directory, and an error or an empty key is a failure: the
      builder never invents a room. */
  function MakeEventMeta(env: Env, channelID: string, channel: Option<Channel>, senderID: string, timestamp: string)
    : (r: Result<EventMeta, Error>)
    ensures channel.Some? ==> r.Ok? && r.value.portalKey == env.makePortalKey(channel.value)
    ensures channel.None? ==>
      var lookup := env.findPortalReceiver(env.codec.makePortalID(env.teamID, channelID), env.loginID);
      && (lookup.Err? ==> r == Err(PortalReceiverFailed(lookup.error)))
      && (lookup.Ok? && lookup.value.IsEmpty() ==> r == Err(UnknownChannel(channelID)))
      && (lookup.Ok? && !lookup.value.IsEmpty() ==> r.Ok? && r.value.portalKey == lookup.value)
    ensures r.Ok? ==> !r.value.portalKey.IsEmpty() || channel.Some?
    ensures r.Ok? ==> r.value.sender == (if senderID == "" then NoSender else env.makeEventSender(senderID))
    ensures r.Ok? && timestamp == "" ==> r.value.id == "" && r.value.timestamp == ZeroTime
    ensures r.Ok? && timestamp != "" ==>
      && r.value.id == env.codec.makeMessageID(env.teamID, channelID, timestamp)
      && r.value.timestamp == env.codec.parseSlackTimestamp(timestamp)
    ensures r.Ok? ==> r.value.kind == RemoteEventUnknown && !r.value.createPortal && r.value.logContext == NilLogContext
  {
    var key: Result<PortalKey, Error> :=
      if channel.Some? then Ok(env.makePortalKey(channel.value))
      else match env.findPortalReceiver(env.codec.makePortalID(env.teamID, channelID), env.loginID)
        case Err(e) => Err(PortalReceiverFailed(e))
        case Ok(k) => if k.IsEmpty() then Err(UnknownChannel(channelID)) else Ok(k);
    match key
    case Err(e) => Err(e)
    case Ok(k) =>
      Ok(EventMeta(
        RemoteEventUnknown, k,
        if senderID != "" then env.makeEventSender(senderID) else NoSender,
        if timestamp != "" then env.codec.parseSlackTimestamp(timestamp) else ZeroTime,
        if timestamp != "" then env.codec.makeMessageID(env.teamID, channelID, timestamp) else "",
        NilLogContext, false))
  }

  /** `SlackEventMeta.GetTimestamp`: the stored timestamp, or "now" when none was stored. */
  function MetaTimestamp(meta: EventMeta, now: Time): (t: Time)
    ensures meta.timestamp == ZeroTime ==> t == now
    ensures meta.timestamp != ZeroTime ==> t == meta.timestamp
  {
    if meta.timestamp.ZeroTime? then now else meta.timestamp
  }

  // ---------------------------------------------------------------------------
  // Wrappers

  /** `wrapReaction`: a reaction or reaction removal aimed at `item`'s message. A custom
      (image) emoji adds its image reference to the extra content and, unless custom
      emoji reactions are enabled, is shown as its shortcode. */
  function WrapReaction(env: Env, meta: EventMeta, reaction: string, add: bool, item: ReactionItem)
    : (e: RemoteEvent)
    ensures e.SlackReaction?
    ensures e.meta == meta.(kind := if add then RemoteEventReaction else RemoteEventReactionRemove)
    ensures e.emojiID == reaction && e.extra.name == reaction
    ensures e.extra.shortcode == ":" + reaction + ":"
    ensures e.extra.mxc.Some? <==> env.getEmoji(reaction).1
    ensures e.extra.mxc.Some? ==> e.extra.mxc.value == env.getEmoji(reaction).0
    ensures env.getEmoji(reaction).1 && !env.customEmojiReactions ==> e.emoji == e.extra.shortcode
    ensures !(env.getEmoji(reaction).1 && !env.customEmojiReactions) ==> e.emoji == env.getEmoji(reaction).0
    ensures e.targetID == env.codec.makeMessageID(env.teamID, item.channel, item.timestamp)
  {
    var shortcode := ":" + reaction + ":";
    var (emoji, isImage) := env.getEmoji(reaction);
    SlackReaction(
      meta.(kind := if add then RemoteEventReaction else RemoteEventReactionRemove),
      env.codec.makeMessageID(env.teamID, item.channel, item.timestamp),
      reaction,
      if isImage && !env.customEmojiReactions then shortcode else emoji,
      ReactionExtra(shortcode, reaction, if isImage then Some(emoji) else None))
  }

  /** `wrapTyping`: a typing notice; only the envelope's kind changes. */
  function WrapTyping(meta: EventMeta): (e: RemoteEvent)
    ensures e.SlackTyping? && EventType(e) == RemoteEventTyping
    ensures e.meta.(kind := meta.kind) == meta
  {
    SlackTyping(meta.(kind := RemoteEventTyping))
  }

  /** `wrapReadReceipt`: a read receipt; only the envelope's kind changes. */
  function WrapReadReceipt(meta: EventMeta): (e: RemoteEvent)
    ensures e.SlackReadReceipt? && EventType(e) == RemoteEventReadReceipt
    ensures e.meta.(kind := meta.kind) == meta
  {
    SlackReadReceipt(meta.(kind := RemoteEventReadReceipt))
  }

  /** `wrapMemberChange`: a chat-info change carrying exactly one membership change. */
  function WrapMemberChange(meta: EventMeta, sender: EventSender, newMembership: Membership, prevMembership: Membership)
    : (e: RemoteEvent)
    ensures e.SlackChatInfoChange? && EventType(e) == RemoteEventChatInfoChange
    ensures e.meta.(kind := meta.kind) == meta
    ensures e.change.MemberChanges? && |e.change.members| == 1
    ensures e.change.members[0] == ChatMember(sender, newMembership, prevMembership)
  {
    SlackChatInfoChange(meta.(kind := RemoteEventChatInfoChange),
      MemberChanges([ChatMember(sender, newMembership, prevMembership)]))
  }

  /** The arguments each chat event passes to `makeEventMeta`: channel ID, inline
      channel descriptor, sender ID and timestamp. Read receipts and the session's own
      joins and leaves name the session's user; typing and member events carry no
      timestamp; a channel update names no sender. */
  datatype MetaRequest = MetaRequest(channelID: string, channel: Option<Channel>, senderID: string, timestamp: string)

  function MetaRequestOf(env: Env, evt: RtmEvent): MetaRequest
    requires IsChatEvent(evt)
  {
    match evt
    case MessageEvent(data) => MetaRequest(data.channel, None, data.user, data.timestamp)
    case ReactionAddedEvent(user, _, item, ts) => MetaRequest(item.channel, None, user, ts)
    case ReactionRemovedEvent(user, _, item, ts) => MetaRequest(item.channel, None, user, ts)
    case UserTypingEvent(channel, user) => MetaRequest(channel, None, user, "")
    case ChannelMarkedEvent(channel, ts) => MetaRequest(channel, None, env.userID, ts)
    case IMMarkedEvent(channel, ts) => MetaRequest(channel, None, env.userID, ts)
    case GroupMarkedEvent(channel, ts) => MetaRequest(channel, None, env.userID, ts)
    case ChannelJoinedEvent(ch) => MetaRequest(ch.id, Some(ch), env.userID, "")
    case ChannelLeftEvent(channel, ts) => MetaRequest(channel, None, env.userID, ts)
    case GroupJoinedEvent(ch) => MetaRequest(ch.id, Some(ch), env.userID, "")
    case GroupLeftEvent(channel, ts) => MetaRequest(channel, None, env.userID, ts)
    case MemberJoinedChannelEvent(channel, user) => MetaRequest(channel, None, user, "")
    case MemberLeftChannelEvent(channel, user) => MetaRequest(channel, None, user, "")
    case ChannelUpdateEvent(channel, ts) => MetaRequest(channel, None, "", ts)
  }

  /** The envelope `wrapEvent` builds for a chat event. */
  function MetaOf(env: Env, evt: RtmEvent): Result<EventMeta, Error>
    requires IsChatEvent(evt)
  {
    var req := MetaRequestOf(env, evt);
    MakeEventMeta(env, req.channelID, req.channel, req.senderID, req.timestamp)
  }

  /** The wrapping step of `wrapEvent` once the envelope is built. */
  function WrapWithMeta(env: Env, evt: RtmEvent, meta: EventMeta, info: ChatInfo): (e: RemoteEvent)
    requires IsChatEvent(evt)
    ensures evt.MessageEvent? ==>
      && e.SlackMessage? && e.data == evt.data
      && e.meta == meta.(kind := RemoteEventMessage, createPortal := true,
                         logContext := MessageLogContext(evt.data.timestamp, evt.data.user))
    ensures !evt.MessageEvent? ==>
      e.meta == meta.(kind := OtherEventType(evt), createPortal := MayCreatePortal(evt) || meta.createPortal)
  {
    match evt
    case MessageEvent(data) =>
      SlackMessage(meta.(kind := RemoteEventMessage, createPortal := true,
                         logContext := MessageLogContext(data.timestamp, data.user)), data)
    case ReactionAddedEvent(_, reaction, item, _) => WrapReaction(env, meta, reaction, true, item)
    case ReactionRemovedEvent(_, reaction, item, _) => WrapReaction(env, meta, reaction, false, item)
    case UserTypingEvent(_, _) => WrapTyping(meta)
    case ChannelMarkedEvent(_, _) => WrapReadReceipt(meta)
    case IMMarkedEvent(_, _) => WrapReadReceipt(meta)
    case GroupMarkedEvent(_, _) => WrapReadReceipt(meta)
    case ChannelJoinedEvent(_) =>
      WrapMemberChange(meta.(createPortal := true), meta.sender, MembershipJoin, NoMembership)
    case ChannelLeftEvent(_, _) => WrapMemberChange(meta, meta.sender, MembershipLeave, MembershipJoin)
    case GroupJoinedEvent(_) =>
      WrapMemberChange(meta.(createPortal := true), meta.sender, MembershipJoin, NoMembership)
    case GroupLeftEvent(_, _) => WrapMemberChange(meta, meta.sender, MembershipLeave, MembershipJoin)
    case MemberJoinedChannelEvent(_, _) => WrapMemberChange(meta, meta.sender, MembershipJoin, NoMembership)
    case MemberLeftChannelEvent(_, _) => WrapMemberChange(meta, meta.sender, MembershipLeave, MembershipJoin)
    case ChannelUpdateEvent(_, _) =>
      SlackChatInfoChange(meta.(kind := RemoteEventChatInfoChange, createPortal := true), FullChatInfo(info))
  }

  /** The payload each kind of chat event is wrapped with. */
  lemma WrapWithMetaPayload(env: Env, evt: RtmEvent, meta: EventMeta, info: ChatInfo)
    requires IsChatEvent(evt)
    ensures var e := WrapWithMeta(env, evt, meta, info);
      && (evt.ReactionAddedEvent? || evt.ReactionRemovedEvent? ==>
            e == WrapReaction(env, meta, evt.reaction, evt.ReactionAddedEvent?, evt.item))
      && (evt.UserTypingEvent? ==> e.SlackTyping?)
      && (evt.ChannelMarkedEvent? || evt.IMMarkedEvent? || evt.GroupMarkedEvent? ==> e.SlackReadReceipt?)
      && (IsMembershipEvent(evt) ==>
            && e.SlackChatInfoChange?
            && e.change == MemberChanges([ChatMember(meta.sender, NewMembership(evt), PrevMembership(evt))]))
      && (evt.ChannelUpdateEvent? ==> e.SlackChatInfoChange? && e.change == FullChatInfo(info))
  {
  }

  /** `wrapEvent`: build the envelope for a chat event and wrap it in its kind. A channel
      update first re-fetches the full chat info; that fetch happens even when the
      envelope failed, and its error wins. An envelope error drops the wrapped event
      (the Go code wraps the partial envelope and returns both). */
  function WrapEvent(env: Env, evt: RtmEvent): (r: Result<RemoteEvent, Error>)
    requires IsChatEvent(evt)
    ensures r.Err? <==>
      || (evt.ChannelUpdateEvent? && env.fetchChatInfo(evt.channel).Err?)
      || MetaOf(env, evt).Err?
    ensures r.Ok? && evt.MessageEvent? ==>
      && r.value.SlackMessage? && r.value.data == evt.data
      && r.value.meta == MetaOf(env, evt).value.(kind := RemoteEventMessage, createPortal := true,
                                                 logContext := MessageLogContext(evt.data.timestamp, evt.data.user))
    ensures r.Ok? && !evt.MessageEvent? ==>
      r.value.meta == MetaOf(env, evt).value.(kind := ExpectedType(evt), createPortal := MayCreatePortal(evt))
    ensures r.Ok? && (evt.ReactionAddedEvent? || evt.ReactionRemovedEvent?) ==>
      r.value == WrapReaction(env, MetaOf(env, evt).value, evt.reaction, evt.ReactionAddedEvent?, evt.item)
    ensures r.Ok? && evt.UserTypingEvent? ==> r.value.SlackTyping?
    ensures r.Ok? && evt.ChannelUpdateEvent? ==>
      && r.value.SlackChatInfoChange?
      && r.value.change == FullChatInfo(env.fetchChatInfo(evt.channel).value)
    ensures r.Ok? ==> EventType(r.value) == ExpectedType(evt)
    ensures r.Ok? ==> (r.value.meta.createPortal <==> MayCreatePortal(evt))
    ensures r.Ok? && IsMembershipEvent(evt) ==>
      && r.value.SlackChatInfoChange?
      && r.value.change == MemberChanges([ChatMember(r.value.meta.sender, NewMembership(evt), PrevMembership(evt))])
    ensures r.Ok? && (evt.ChannelMarkedEvent? || evt.IMMarkedEvent? || evt.GroupMarkedEvent?) ==>
      && r.value.SlackReadReceipt?
      && r.value.meta.sender == (if env.userID == "" then NoSender else env.makeEventSender(env.userID))
    ensures r.Ok? ==> (r.value.meta.logContext.MessageLogContext? <==> evt.MessageEvent?)
    ensures r.Ok? && !evt.MessageEvent? ==> r.value.meta.logContext == NilLogContext
  {
    var info: Result<ChatInfo, ApiError> :=
      if evt.ChannelUpdateEvent? then env.fetchChatInfo(evt.channel) else Ok(ChatInfo("", ""));
    if info.Err? then Err(ChatInfoFailed(info.error))
    else
      match MetaOf(env, evt)
      case Err(e) => Err(e)
      case Ok(meta) =>
        WrapWithMetaPayload(env, evt, meta, info.value);
        Ok(WrapWithMeta(env, evt, meta, info.value))
  }

  // ---------------------------------------------------------------------------
  // The event-to-kind table, stated independently of the wrappers

  /** The kind each chat event is reported as. */
  function ExpectedType(evt: RtmEvent): RemoteEventType
    requires IsChatEvent(evt)
  {
    if evt.MessageEvent? then MessageType(evt.data.subType) else OtherEventType(evt)
  }

  /** The kind of every chat event other than a message, which depends on the event alone. */
  function OtherEventType(evt: RtmEvent): RemoteEventType {
    if evt.ReactionAddedEvent? then RemoteEventReaction
    else if evt.ReactionRemovedEvent? then RemoteEventReactionRemove
    else if evt.UserTypingEvent? then RemoteEventTyping
    else if evt.ChannelMarkedEvent? || evt.IMMarkedEvent? || evt.GroupMarkedEvent? then RemoteEventReadReceipt
    else RemoteEventChatInfoChange
  }

  /** The events received on first sight of a room may create its portal. */
  predicate MayCreatePortal(evt: RtmEvent) {
    evt.MessageEvent? || evt.ChannelJoinedEvent? || evt.GroupJoinedEvent? || evt.ChannelUpdateEvent?
  }

  predicate IsJoinEvent(evt: RtmEvent) {
    evt.ChannelJoinedEvent? || evt.GroupJoinedEvent? || evt.MemberJoinedChannelEvent?
  }

  predicate IsLeaveEvent(evt: RtmEvent) {
    evt.ChannelLeftEvent? || evt.GroupLeftEvent? || evt.MemberLeftChannelEvent?
  }

  predicate IsMembershipEvent(evt: RtmEvent) { IsJoinEvent(evt) || IsLeaveEvent(evt) }

  /** A join enters from no membership; a leave leaves a joined room. */
  function NewMembership(evt: RtmEvent): Membership {
    if IsJoinEvent(evt) then MembershipJoin else MembershipLeave
  }

  function PrevMembership(evt: RtmEvent): Membership {
    if IsJoinEvent(evt) then NoMembership else MembershipJoin
  }

  // ---------------------------------------------------------------------------
  // Accessors the bridge calls on a queued event

  /** `SlackMessage.GetType`: a message event's kind follows its subtype. */
  function MessageType(subType: string): (t: RemoteEventType)
    ensures t == RemoteEventEdit <==> subType == "message_changed"
    ensures t == RemoteEventMessageRemove <==> subType == "message_deleted"
    ensures t == RemoteEventChatInfoChange <==> subType in InfoSubTypes()
    ensures t == RemoteEventUnknown <==> subType in StructuralSubTypes()
    ensures t == RemoteEventMessage <==>
      subType !in {"message_changed", "message_deleted"} + InfoSubTypes() + StructuralSubTypes()
  {
    if subType == "message_changed" then RemoteEventEdit
    else if subType == "message_deleted" then RemoteEventMessageRemove
    else if subType in InfoSubTypes() then RemoteEventChatInfoChange
    else if subType in StructuralSubTypes() then RemoteEventUnknown
    else RemoteEventMessage
  }

  /** Topic, purpose and name changes of channels and private groups. */
  function InfoSubTypes(): set<string> {
    {"channel_topic", "channel_purpose", "channel_name", "group_topic", "group_purpose", "group_name"}
  }

  /** Thread-reply markers and the synthetic join/leave system messages. */
  function StructuralSubTypes(): set<string> {
    {"message_replied", "group_join", "group_leave", "channel_join", "channel_leave"}
  }

  /** `SlackMessage.GetTimestamp`: the edit's own timestamp for a change, the deletion
      timestamp for a deletion, and the stored envelope timestamp otherwise. Unlike the
      envelope's accessor, this one never substitutes "now". */
  function MessageTimestamp(codec: Codec, meta: EventMeta, data: SlackMsg): (t: Time)
    ensures data.subType == "message_changed" ==> t == codec.parseSlackTimestamp(data.subMessageTimestamp)
    ensures data.subType == "message_deleted" ==> t == codec.parseSlackTimestamp(data.deletedTimestamp)
    ensures data.subType !in {"message_changed", "message_deleted"} ==> t == meta.timestamp
  {
    if data.subType == "message_changed" then codec.parseSlackTimestamp(data.subMessageTimestamp)
    else if data.subType == "message_deleted" then codec.parseSlackTimestamp(data.deletedTimestamp)
    else meta.timestamp
  }

  /** `GetType` on a queued event: messages answer by subtype, the rest by their envelope. */
  function EventType(e: RemoteEvent): (t: RemoteEventType)
    ensures e.SlackMessage? ==> t == MessageType(e.data.subType)
    ensures !e.SlackMessage? ==> t == e.meta.kind
  {
    if e.SlackMessage? then MessageType(e.data.subType) else e.meta.kind
  }

  /** `GetTimestamp` on a queued event. Only a message can report the zero time (when
      it had no timestamp): every other kind falls back to "now". */
  function EventTimestamp(codec: Codec, e: RemoteEvent, now: Time): (t: Time)
    ensures t == ZeroTime ==> e.SlackMessage? || now == ZeroTime
    ensures e.SlackMessage? ==> t == MessageTimestamp(codec, e.meta, e.data)
    ensures !e.SlackMessage? ==> t == MetaTimestamp(e.meta, now)
  {
    if e.SlackMessage? then MessageTimestamp(codec, e.meta, e.data) else MetaTimestamp(e.meta, now)
  }

  /** The time a queued chat event reports: events without a Slack timestamp (typing,
      joins by inline channel, member changes) are stamped "now"; a message without one
      reports the zero time; an edit or deletion reports the edit's or deletion's own
      timestamp; everything else the parsed Slack timestamp. */
  lemma WrappedEventTimestamp(env: Env, evt: RtmEvent, now: Time)
    requires IsChatEvent(evt) && WrapEvent(env, evt).Ok?
    ensures var ts := MetaRequestOf(env, evt).timestamp;
      var t := EventTimestamp(env.codec, WrapEvent(env, evt).value, now);
      && (!evt.MessageEvent? && ts == "" ==> t == now)
      && (!evt.MessageEvent? && ts != "" ==>
            t == (if env.codec.parseSlackTimestamp(ts) == ZeroTime then now else env.codec.parseSlackTimestamp(ts)))
      && (evt.MessageEvent? && evt.data.subType == "message_changed" ==>
            t == env.codec.parseSlackTimestamp(evt.data.subMessageTimestamp))
      && (evt.MessageEvent? && evt.data.subType == "message_deleted" ==>
            t == env.codec.parseSlackTimestamp(evt.data.deletedTimestamp))
      && (evt.MessageEvent? && evt.data.subType !in {"message_changed", "message_deleted"} ==>
            t == (if ts == "" then ZeroTime else env.codec.parseSlackTimestamp(ts)))
  {
  }

  // ---------------------------------------------------------------------------
  // Dispatch

  /** What `HandleSlackEvent` does with one event. */
  datatype Action =
    | SendState(state: BridgeState)     // BridgeState.Send
    | Invalidate(state: BridgeState)    // invalidateSession with this final state
    | Queue(event: RemoteEvent)         // Bridge.QueueRemoteEvent
    | DropFailed(error: Error)          // wrapping failed: logged and dropped
    | Ignore                            // known event deliberately ignored
    | WarnUnrecognized                  // unknown event type: logged at warning level

  /** The error code of an RTM error, "slack-rtm-error-<code>". */
  function RtmErrorCode(code: int): string {
    "slack-rtm-error-" + IntToDecimal(code)
  }

  /** `HandleSlackEvent`'s decision for one event. */
  function Dispatch(env: Env, evt: RtmEvent): (a: Action)
    ensures evt.ConnectingEvent? ==> a == SendState(BridgeState(StateConnecting, "", ""))
    ensures evt.ConnectedEvent? && (evt.teamID != env.teamID || evt.userID != env.userID) ==>
      a == Invalidate(BridgeState(StateUnknownError, "slack-id-mismatch", ""))
    ensures evt.ConnectedEvent? && evt.teamID == env.teamID && evt.userID == env.userID ==>
      a == SendState(BridgeState(StateConnected, "", ""))
    ensures evt.InvalidAuthEvent? ==> a == Invalidate(BridgeState(StateBadCredentials, "slack-invalid-auth", ""))
    ensures a.Invalidate? <==>
      evt.InvalidAuthEvent? || (evt.ConnectedEvent? && (evt.teamID != env.teamID || evt.userID != env.userID))
    ensures a.SendState? && a.state.stateEvent == StateConnected ==>
      evt.ConnectedEvent? && evt.teamID == env.teamID && evt.userID == env.userID
    ensures evt.RTMError? ==>
      a == SendState(BridgeState(StateUnknownError, RtmErrorCode(evt.code), IntToDecimal(evt.code) + ": " + evt.msg))
    ensures a.Queue? <==> IsChatEvent(evt) && WrapEvent(env, evt).Ok?
    ensures a.Queue? ==> a.event == WrapEvent(env, evt).value
    ensures a.DropFailed? <==> IsChatEvent(evt) && WrapEvent(env, evt).Err?
    ensures a == Ignore <==> evt.HelloEvent? || evt.EmojiChangedEvent? || evt.DuplicateEvent?
    ensures a == WarnUnrecognized <==> evt.UnrecognizedEvent?
  {
    if IsChatEvent(evt) then
      var wrapped := WrapEvent(env, evt);
      if wrapped.Err? then DropFailed(wrapped.error) else Queue(wrapped.value)
    else
      match evt
      case ConnectingEvent(_, _) => SendState(BridgeState(StateConnecting, "", ""))
      case ConnectedEvent(team, user) =>
        if team != env.teamID || user != env.userID then
          Invalidate(BridgeState(StateUnknownError, "slack-id-mismatch", ""))
        else
          SendState(BridgeState(StateConnected, "", ""))
      case HelloEvent => Ignore
      case InvalidAuthEvent => Invalidate(BridgeState(StateBadCredentials, "slack-invalid-auth", ""))
      case RTMError(code, msg) =>
        SendState(BridgeState(StateUnknownError, RtmErrorCode(code), IntToDecimal(code) + ": " + msg))
      case EmojiChangedEvent => Ignore
      case DuplicateEvent(_) => Ignore
      case UnrecognizedEvent(_) => WarnUnrecognized
  }

  /** Different RTM error codes are reported under different error codes: the
      decimal rendering of the code is read back unambiguously. */
  lemma RtmErrorCodesDistinct(code1: int, code2: int)
    requires code1 != code2
    ensures RtmErrorCode(code1) != RtmErrorCode(code2)
  {
    var prefix := "slack-rtm-error-";
    if RtmErrorCode(code1) == RtmErrorCode(code2) {
      assert RtmErrorCode(code1)[|prefix|..] == IntToDecimal(code1);
      assert RtmErrorCode(code2)[|prefix|..] == IntToDecimal(code2);
      IntToDecimalRoundTrip(code1);
      IntToDecimalRoundTrip(code2);
    }
  }
}
