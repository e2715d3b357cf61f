/** Types shared by the Slack connector's three cores: results and errors, the
    bridge's addressing values, bridge states, Slack channels, and the identifier
    codec of package slackid. The codec's bodies are not part of this model, so it
    is carried as a record of functions: every property proved here holds for ANY
    codec, and nothing is claimed about its round trips or injectivity. */
module SlackTypes {

  datatype Option<T> = None | Some(value: T)

  datatype Result<T, E> = Ok(value: T) | Err(error: E)

  /** An error returned by a collaborator (the Slack web API, the bridge database,
      the portal directory), carried with the text its `Error()` method returns. */
  datatype ApiError = ApiError(text: string)

  /** The errors the connector itself returns. */
  datatype Error =
    | NotLoggedIn                          // bridgev2.ErrNotLoggedIn
    | InvalidChannelID                     // "invalid channel ID"
    | InvalidMessageID                     // "invalid message ID"
    | NoPayload                            // "no message or attachment to send"
    | UnknownEmoji(key: string)            // "unknown emoji %q"
    | EmojiDbFailed(cause: ApiError)       // "failed to get emoji from db: %w"
    | PortalReceiverFailed(cause: ApiError)  // "failed to find portal receiver: %w"
    | UnknownChannel(channelID: string)    // "unknown channel %s"
    | ChatInfoFailed(cause: ApiError)      // "failed to get chat info: %w"
    | TeamPortalFailed(cause: ApiError)    // "failed to get team portal: %w"
    | Propagated(cause: ApiError)          // a collaborator's error returned unchanged
    | NilClientPanic                       // Go dereferences a nil *slack.Client and panics
    | NilEmojiPanic                        // Go dereferences a nil *slackdb.Emoji and panics

  /** Go's `time.Time`, with its zero value kept apart from every real instant. */
  datatype Time = ZeroTime | Instant(unixNanos: int)

  /** bridgev2's `networkid.PortalKey`; the zero key is "empty". */
  datatype PortalKey = PortalKey(id: string, receiver: string) {
    predicate IsEmpty() { id == "" && receiver == "" }
  }

  /** bridgev2's `EventSender`; `NoSender` is the zero value left when no sender is resolved. */
  datatype EventSender = NoSender | Sender(userID: string, isFromMe: bool)

  /** A bridged room as the portal directory returns it; `mxid == ""` means no Matrix room yet. */
  datatype Portal = Portal(key: PortalKey, mxid: string)

  /** Opaque room metadata produced by the chat-info collaborators. */
  datatype ChatInfo = ChatInfo(name: string, topic: string)

  /** `slack.Channel`, reduced to the fields the connector reads. `latestSubType` is the
      subtype of `Latest`, the channel's newest message, when there is one. */
  datatype Channel = Channel(id: string, isIM: bool, latestSubType: Option<string>, lastRead: string)

  /** The bridge-state events the connector sends. */
  datatype StateEvent = StateConnecting | StateConnected | StateUnknownError | StateBadCredentials

  /** `status.BridgeState`: an event, an error code and a human message ("" when unset). */
  datatype BridgeState = BridgeState(stateEvent: StateEvent, error: string, message: string)

  /** A decoded message identifier: team, channel and Slack timestamp. */
  datatype MessageRef = MessageRef(teamID: string, channelID: string, timestamp: string)

  /** The identifier codec of package slackid, passed in as uninterpreted functions. */
  datatype Codec = Codec(
    makePortalID: (string, string) -> string,           // MakePortalID(team, channel)
    makeTeamPortalID: string -> string,                 // MakeTeamPortalID(team)
    parsePortalID: string -> (string, string),          // ParsePortalID(id) = (team, channel)
    makeMessageID: (string, string, string) -> string,  // MakeMessageID(team, channel, ts)
    parseMessageID: string -> Option<MessageRef>,       // ParseMessageID(id), None when !ok
    makeUserID: (string, string) -> string,             // MakeUserID(team, user)
    parseUserLoginID: string -> (string, string),       // ParseUserLoginID(id) = (team, user)
    parseSlackTimestamp: string -> Time)                // ParseSlackTimestamp(ts)

  /** The channel part of a portal ID; "" when the ID names no channel. */
  function ChannelOf(codec: Codec, portalID: string): string {
    codec.parsePortalID(portalID).1
  }
}
