/** The outbound half of the connector: each Matrix action becomes at most one call to
    Slack's web API, behind the same guards (no client: not logged in; an undecodable
    portal or message ID; a session that does not belong to a real Slack user). The
    web API, the content converter and the bridge database are collaborators whose
    answers are parameters; each handler reports the API calls it made and its result. */
module MatrixHandlers {
  import opened SlackTypes

  /** What the handlers read from the session: whether `Client` is non-nil, whether the
      login is a real Slack user (not a relay/puppet-only login), and its IDs. */
  datatype SessionView = SessionView(hasClient: bool, isRealUser: bool, teamID: string, userID: string)

  /** Opaque payloads produced by the content converter. */
  datatype SendRequest = SendRequest(payload: string)
  datatype FileUpload = FileUpload(payload: string)
  datatype FileShare = FileShare(payload: string)

  /** `msgconv.ConvertedSlackMessage`: which of the three payload kinds the converter built. */
  datatype Converted = Converted(sendReq: Option<SendRequest>, fileUpload: Option<FileUpload>, fileShare: Option<FileShare>)

  /** `slack.ShareFileInfo`, reduced to the timestamp of the channel message. */
  datatype ShareInfo = ShareInfo(ts: string)

  /** An uploaded file: its ID and where Slack shared it, privately and publicly, by channel. */
  datatype UploadedFile = UploadedFile(
    id: string, privateShares: map<string, seq<ShareInfo>>, publicShares: map<string, seq<ShareInfo>>)

  /** The Slack web API calls the handlers make. */
  datatype ApiCall =
    | PostMessage(channel: string, req: SendRequest)
    | UploadFile(upload: FileUpload)
    | ShareFile(share: FileShare)
    | DeleteMessage(channel: string, ts: string)
    | AddReaction(emoji: string, channel: string, ts: string)
    | RemoveReaction(emoji: string, channel: string, ts: string)
    | MarkConversation(channel: string, ts: string)
    | SendTyping(channel: string)
    | RenameConversation(channel: string, name: string)
    | SetTopic(channel: string, topic: string)

  /** The answers of the Slack web API, one function per call. */
  datatype SlackApi = SlackApi(
    postMessage: (string, SendRequest) -> Result<string, ApiError>,   // message timestamp
    uploadFile: FileUpload -> Result<UploadedFile, ApiError>,
    shareFile: FileShare -> Result<string, ApiError>,                 // FileMsgTS
    deleteMessage: (string, string) -> Option<ApiError>,
    addReaction: (string, string, string) -> Option<ApiError>,
    removeReaction: (string, string, string) -> Option<ApiError>,
    markConversation: (string, string) -> Option<ApiError>,
    renameConversation: (string, string) -> Option<ApiError>,
    setTopic: (string, string) -> Option<ApiError>)

  /** A handler that returns only an error: the calls it made and the error, if any. */
  datatype Handled = Handled(calls: seq<ApiCall>, err: Option<Error>)

  function Propagate(e: Option<ApiError>): (r: Option<Error>)
    ensures r.None? <==> e.None?
  {
    if e.None? then None else Some(Propagated(e.value))
  }

  // ---------------------------------------------------------------------------
  // sendToSlack

  /** Where Slack put the channel message of an uploaded file: the first private share
      in the channel if there is any, else the first public one, else none (""). */
  function ShareTimestamp(file: UploadedFile, channelID: string): (ts: string)
    ensures channelID in file.privateShares && |file.privateShares[channelID]| > 0 ==>
      ts == file.privateShares[channelID][0].ts
    ensures !(channelID in file.privateShares && |file.privateShares[channelID]| > 0) ==>
      if channelID in file.publicShares && |file.publicShares[channelID]| > 0
      then ts == file.publicShares[channelID][0].ts
      else ts == ""
  {
    if channelID in file.privateShares && |file.privateShares[channelID]| > 0 then file.privateShares[channelID][0].ts
    else if channelID in file.publicShares && |file.publicShares[channelID]| > 0 then file.publicShares[channelID][0].ts
    else ""
  }

  /** The transaction ID an upload still waiting for its message is saved under. */
  function PendingTransactionID(userID: string, fileID: string): string {
    userID + ":" + fileID
  }

  /** A web-API answer as `sendToSlack` returns it: the timestamp, or the error unchanged. */
  function SentTimestamp(answer: Result<string, ApiError>): Result<string, Error> {
    match answer
    case Ok(ts) => Ok(ts)
    case Err(e) => Err(Propagated(e))
  }

  /** What `sendToSlack` does: the call it makes, the pending transaction it records on
      the message (only when there is a message to record it on), and the timestamp. */
  datatype SendOutcome = SendOutcome(calls: seq<ApiCall>, pending: Option<string>, result: Result<string, Error>)

  /** `sendToSlack`'s decision: a prepared message request first, else a file upload,
      else a share of an already uploaded file; nothing at all is an error. Exactly one
      call is made when there is a payload. */
  function SendPlan(api: SlackApi, userID: string, channelID: string, conv: Converted, hasMsg: bool)
    : (o: SendOutcome)
    ensures conv.sendReq.Some? ==>
      && o.calls == [PostMessage(channelID, conv.sendReq.value)] && o.pending.None?
      && o.result == SentTimestamp(api.postMessage(channelID, conv.sendReq.value))
    ensures conv.sendReq.None? && conv.fileUpload.Some? ==>
      o.calls == [UploadFile(conv.fileUpload.value)]
    ensures conv.sendReq.None? && conv.fileUpload.None? && conv.fileShare.Some? ==>
      && o.calls == [ShareFile(conv.fileShare.value)] && o.pending.None?
      && o.result == SentTimestamp(api.shareFile(conv.fileShare.value))
    ensures conv.sendReq.None? && conv.fileUpload.None? && conv.fileShare.None? ==>
      o == SendOutcome([], None, Err(NoPayload))
    ensures conv.sendReq.None? && conv.fileUpload.Some? ==>
      match api.uploadFile(conv.fileUpload.value)
      case Err(e) => o.result == Err(Propagated(e)) && o.pending.None?
      case Ok(file) =>
        && o.result == Ok(ShareTimestamp(file, channelID))
        && (o.pending.Some? <==> hasMsg && ShareTimestamp(file, channelID) == "")
        && (o.pending.Some? ==> o.pending.value == PendingTransactionID(userID, file.id))
    ensures o.result.Err? ==> o.result.error == NoPayload || o.result.error.Propagated?
  {
    if conv.sendReq.Some? then
      var call := PostMessage(channelID, conv.sendReq.value);
      match api.postMessage(channelID, conv.sendReq.value)
      case Err(e) => SendOutcome([call], None, Err(Propagated(e)))
      case Ok(ts) => SendOutcome([call], None, Ok(ts))
    else if conv.fileUpload.Some? then
      var call := UploadFile(conv.fileUpload.value);
      match api.uploadFile(conv.fileUpload.value)
      case Err(e) => SendOutcome([call], None, Err(Propagated(e)))
      case Ok(file) =>
        var ts := ShareTimestamp(file, channelID);
        if ts != "" then SendOutcome([call], None, Ok(ts))
        else if hasMsg then SendOutcome([call], Some(PendingTransactionID(userID, file.id)), Ok(""))
        else SendOutcome([call], None, Ok(""))
    else if conv.fileShare.Some? then
      var call := ShareFile(conv.fileShare.value);
      match api.shareFile(conv.fileShare.value)
      case Err(e) => SendOutcome([call], None, Err(Propagated(e)))
      case Ok(ts) => SendOutcome([call], None, Ok(ts))
    else
      SendOutcome([], None, Err(NoPayload))
  }

  /** Whichever payloads the converter filled, at most one call reaches Slack. */
  lemma SendPlanMakesAtMostOneCall(api: SlackApi, userID: string, channelID: string, conv: Converted, hasMsg: bool)
    ensures |SendPlan(api, userID, channelID, conv, hasMsg).calls| <= 1
    ensures |SendPlan(api, userID, channelID, conv, hasMsg).calls| == 1 <==>
      conv.sendReq.Some? || conv.fileUpload.Some? || conv.fileShare.Some?
  {
  }

  /** An incoming Matrix message; `pendingToSave` lists the transaction IDs handed to
      `AddPendingToSave`. */
  class MatrixMessage {
    const portalID: string
    var pendingToSave: seq<string>

    constructor (portalID: string)
      ensures this.portalID == portalID && pendingToSave == []
    {
      this.portalID := portalID;
      pendingToSave := [];
    }

    method AddPendingToSave(txnID: string)
      modifies this
      ensures pendingToSave == old(pendingToSave) + [txnID]
    {
      pendingToSave := pendingToSave + [txnID];
    }
  }

  function OptionToSeq<T>(o: Option<T>): seq<T> {
    if o.Some? then [o.value] else []
  }

  /** `sendToSlack`: send the converted payload; an upload whose message is not yet
      visible is recorded on `msg` (when there is one) and reported with timestamp "". */
  method SendToSlack(api: SlackApi, s: SessionView, channelID: string, conv: Converted, msg: MatrixMessage?)
    returns (ts: string, err: Option<Error>)
    modifies msg
    ensures var plan := SendPlan(api, s.userID, channelID, conv, msg != null);
      && (plan.result.Ok? ==> err.None? && ts == plan.result.value)
      && (plan.result.Err? ==> err == Some(plan.result.error) && ts == "")
      && (msg != null ==> msg.pendingToSave == old(msg.pendingToSave) + OptionToSeq(plan.pending))
  {
    if conv.sendReq.Some? {
      var sent := api.postMessage(channelID, conv.sendReq.value);
      if sent.Err? { ts, err := "", Some(Propagated(sent.error)); } else { ts, err := sent.value, None; }
    } else if conv.fileUpload.Some? {
      var uploaded := api.uploadFile(conv.fileUpload.value);
      if uploaded.Err? {
        return "", Some(Propagated(uploaded.error));
      }
      var file := uploaded.value;
      var shareTs := "";
      if channelID in file.privateShares && |file.privateShares[channelID]| > 0 {
        shareTs := file.privateShares[channelID][0].ts;
      } else if channelID in file.publicShares && |file.publicShares[channelID]| > 0 {
        shareTs := file.publicShares[channelID][0].ts;
      }
      if shareTs != "" {
        return shareTs, None;
      }
      if msg != null {
        msg.AddPendingToSave(PendingTransactionID(s.userID, file.id));
      }
      ts, err := "", None;
    } else if conv.fileShare.Some? {
      var shared := api.shareFile(conv.fileShare.value);
      if shared.Err? { ts, err := "", Some(Propagated(shared.error)); } else { ts, err := shared.value, None; }
    } else {
      ts, err := "", Some(NoPayload);
    }
  }

  // ---------------------------------------------------------------------------
  // Messages and edits

  /** `bridgev2.MatrixMessageResponse`: either "pending" or the database row of the sent message. */
  datatype MessageResponse = PendingResponse | StoredMessage(id: string, senderID: string, timestamp: Time)

  /** The result `HandleMatrixMessage` returns, given what the converter produced. */
  function MessageResult(s: SessionView, codec: Codec, api: SlackApi, portalID: string,
                         converted: Result<Converted, ApiError>): (r: Result<MessageResponse, Error>)
    ensures !s.hasClient ==> r == Err(NotLoggedIn)
    ensures s.hasClient && ChannelOf(codec, portalID) == "" ==> r == Err(InvalidChannelID)
    ensures s.hasClient && ChannelOf(codec, portalID) != "" && converted.Err? ==> r == Err(Propagated(converted.error))
    ensures s.hasClient && ChannelOf(codec, portalID) != "" && converted.Ok? ==>
      var sent := SendPlan(api, s.userID, ChannelOf(codec, portalID), converted.value, true).result;
      sent.Err? ==> r == Err(sent.error)
    ensures r.Ok? ==>
      var channelID := ChannelOf(codec, portalID);
      var sent := SendPlan(api, s.userID, channelID, converted.value, true).result;
      && s.hasClient && channelID != "" && converted.Ok? && sent.Ok?
      && (r.value.PendingResponse? <==> sent.value == "")
      && (r.value.StoredMessage? ==>
            && r.value.id == codec.makeMessageID(s.teamID, channelID, sent.value)
            && r.value.senderID == codec.makeUserID(s.teamID, s.userID)
            && r.value.timestamp == codec.parseSlackTimestamp(sent.value))
  {
    if !s.hasClient then Err(NotLoggedIn)
    else
      var channelID := ChannelOf(codec, portalID);
      if channelID == "" then Err(InvalidChannelID)
      else if converted.Err? then Err(Propagated(converted.error))
      else
        var sent := SendPlan(api, s.userID, channelID, converted.value, true).result;
        if sent.Err? then Err(sent.error)
        else if sent.value == "" then Ok(PendingResponse)
        else Ok(StoredMessage(codec.makeMessageID(s.teamID, channelID, sent.value),
                              codec.makeUserID(s.teamID, s.userID),
                              codec.parseSlackTimestamp(sent.value)))
  }

  /** `HandleMatrixMessage`: guards, conversion, `sendToSlack`, and the response. */
  method HandleMatrixMessage(s: SessionView, codec: Codec, api: SlackApi,
                             converted: Result<Converted, ApiError>, msg: MatrixMessage)
    returns (r: Result<MessageResponse, Error>)
    modifies msg
    ensures r == MessageResult(s, codec, api, msg.portalID, converted)
    ensures var channelID := ChannelOf(codec, msg.portalID);
      if s.hasClient && channelID != "" && converted.Ok?
      then msg.pendingToSave ==
             old(msg.pendingToSave) + OptionToSeq(SendPlan(api, s.userID, channelID, converted.value, true).pending)
      else msg.pendingToSave == old(msg.pendingToSave)
  {
    if !s.hasClient {
      return Err(NotLoggedIn);
    }
    var channelID := ChannelOf(codec, msg.portalID);
    if channelID == "" {
      return Err(InvalidChannelID);
    }
    if converted.Err? {
      return Err(Propagated(converted.error));
    }
    var ts, err := SendToSlack(api, s, channelID, converted.value, msg);
    if err.Some? {
      return Err(err.value);
    }
    if ts == "" {
      return Ok(PendingResponse);
    }
    r := Ok(StoredMessage(codec.makeMessageID(s.teamID, channelID, ts), codec.makeUserID(s.teamID, s.userID),
                          codec.parseSlackTimestamp(ts)));
  }

  /** `HandleMatrixEdit`: the same guards, then `sendToSlack` with no message, so an edit
      never records a pending transaction. */
  method HandleMatrixEdit(s: SessionView, codec: Codec, api: SlackApi, portalID: string,
                          converted: Result<Converted, ApiError>)
    returns (err: Option<Error>)
    ensures !s.hasClient ==> err == Some(NotLoggedIn)
    ensures s.hasClient && ChannelOf(codec, portalID) == "" ==> err == Some(InvalidChannelID)
    ensures s.hasClient && ChannelOf(codec, portalID) != "" ==>
      if converted.Err? then err == Some(Propagated(converted.error))
      else
        var sent := SendPlan(api, s.userID, ChannelOf(codec, portalID), converted.value, false);
        && sent.pending.None?
        && (err.None? <==> sent.result.Ok?)
        && (err.Some? ==> err.value == sent.result.error)
  {
    if !s.hasClient {
      return Some(NotLoggedIn);
    }
    var channelID := ChannelOf(codec, portalID);
    if channelID == "" {
      return Some(InvalidChannelID);
    }
    if converted.Err? {
      return Some(Propagated(converted.error));
    }
    var _, sendErr := SendToSlack(api, s, channelID, converted.value, null);
    err := sendErr;
  }

  // ---------------------------------------------------------------------------
  // Removals and reactions

  /** `HandleMatrixMessageRemove`: delete the message by channel and timestamp. */
  function HandleMatrixMessageRemove(s: SessionView, codec: Codec, api: SlackApi, targetID: string): (h: Handled)
    ensures !s.hasClient ==> h == Handled([], Some(NotLoggedIn))
    ensures s.hasClient && codec.parseMessageID(targetID).None? ==> h == Handled([], Some(InvalidMessageID))
    ensures s.hasClient && codec.parseMessageID(targetID).Some? ==>
      var ref := codec.parseMessageID(targetID).value;
      h == Handled([DeleteMessage(ref.channelID, ref.timestamp)], Propagate(api.deleteMessage(ref.channelID, ref.timestamp)))
  {
    if !s.hasClient then Handled([], Some(NotLoggedIn))
    else match codec.parseMessageID(targetID)
      case None => Handled([], Some(InvalidMessageID))
      case Some(ref) =>
        Handled([DeleteMessage(ref.channelID, ref.timestamp)], Propagate(api.deleteMessage(ref.channelID, ref.timestamp)))
  }

  /** `bridgev2.MatrixReactionPreResponse`. */
  datatype ReactionPreResponse = ReactionPreResponse(senderID: string, emojiID: string)

  /** The emoji collaborators: the custom-emoji table looked up by MXC URI (an error, no
      row, or the emoji ID) and the Unicode emoji-to-shortcode table ("" when unknown). */
  datatype EmojiTables = EmojiTables(
    byMXC: string -> Result<Option<string>, ApiError>,
    shortcode: string -> string)

  /** `PreHandleMatrixReaction` as written: a key containing ':' is an MXC URI looked up
      in the custom-emoji table, and the row is dereferenced even when the lookup failed
      or found nothing; any other key is a Unicode emoji mapped to its shortcode. */
  function PreHandleMatrixReactionAsWritten(s: SessionView, codec: Codec, emoji: EmojiTables, key: string)
    : (r: Result<ReactionPreResponse, Error>)
    ensures ':' in key ==> (r.Ok? <==> emoji.byMXC(key).Ok? && emoji.byMXC(key).value.Some?)
    ensures ':' in key && r.Ok? ==> r.value.emojiID == emoji.byMXC(key).value.value
    ensures ':' in key && r.Err? ==> r.error == NilEmojiPanic
    ensures ':' !in key ==> (r.Ok? <==> emoji.shortcode(key) != "")
    ensures ':' !in key && r.Ok? ==> r.value.emojiID == emoji.shortcode(key)
    ensures ':' !in key && r.Err? ==> r.error == UnknownEmoji(key)
    ensures r.Ok? ==> r.value.senderID == codec.makeUserID(s.teamID, s.userID)
  {
    var emojiID: Result<string, Error> :=
      if ':' in key then
        match emoji.byMXC(key)
        case Err(_) => Err(NilEmojiPanic)
        case Ok(None) => Err(NilEmojiPanic)
        case Ok(Some(id)) => Ok(id)
      else if emoji.shortcode(key) == "" then Err(UnknownEmoji(key))
      else Ok(emoji.shortcode(key));
    match emojiID
    case Err(e) => Err(e)
    case Ok(id) => Ok(ReactionPreResponse(codec.makeUserID(s.teamID, s.userID), id))
  }

  /** A failed emoji lookup makes the code as written dereference a nil row. */
  lemma PreHandleDbErrorPanics(s: SessionView, codec: Codec, emoji: EmojiTables, key: string)
    requires ':' in key && emoji.byMXC(key).Err?
    ensures PreHandleMatrixReactionAsWritten(s, codec, emoji, key) == Err(NilEmojiPanic)
  {
  }

  /** A lookup that finds no row does the same. */
  lemma PreHandleMissingRowPanics(s: SessionView, codec: Codec, emoji: EmojiTables, key: string)
    requires ':' in key && emoji.byMXC(key) == Ok(None)
    ensures PreHandleMatrixReactionAsWritten(s, codec, emoji, key) == Err(NilEmojiPanic)
  {
  }

  /** `PreHandleMatrixReaction` with the evidently intended error paths: a failed lookup
      is reported as "failed to get emoji from db", a missing row as an unknown emoji. */
  function PreHandleMatrixReaction(s: SessionView, codec: Codec, emoji: EmojiTables, key: string)
    : (r: Result<ReactionPreResponse, Error>)
    ensures r.Err? ==> r.error != NilEmojiPanic
    ensures ':' in key ==> match emoji.byMXC(key)
      case Err(e) => r == Err(EmojiDbFailed(e))
      case Ok(None) => r == Err(UnknownEmoji(key))
      case Ok(Some(id)) => r.Ok? && r.value.emojiID == id
    ensures ':' !in key ==>
      if emoji.shortcode(key) == "" then r == Err(UnknownEmoji(key))
      else r.Ok? && r.value.emojiID == emoji.shortcode(key)
    ensures r.Ok? ==> r.value.senderID == codec.makeUserID(s.teamID, s.userID)
    ensures r.Ok? ==> r == PreHandleMatrixReactionAsWritten(s, codec, emoji, key)
  {
    var emojiID: Result<string, Error> :=
      if ':' in key then
        match emoji.byMXC(key)
        case Err(e) => Err(EmojiDbFailed(e))
        case Ok(None) => Err(UnknownEmoji(key))
        case Ok(Some(id)) => Ok(id)
      else if emoji.shortcode(key) == "" then Err(UnknownEmoji(key))
      else Ok(emoji.shortcode(key));
    match emojiID
    case Err(e) => Err(e)
    case Ok(id) => Ok(ReactionPreResponse(codec.makeUserID(s.teamID, s.userID), id))
  }

  /** `HandleMatrixReaction`: add the pre-resolved emoji to the target message. */
  function HandleMatrixReaction(s: SessionView, codec: Codec, api: SlackApi, targetID: string, emojiID: string)
    : (h: Handled)
    ensures !s.hasClient ==> h == Handled([], Some(NotLoggedIn))
    ensures s.hasClient && codec.parseMessageID(targetID).None? ==> h == Handled([], Some(InvalidMessageID))
    ensures s.hasClient && codec.parseMessageID(targetID).Some? ==>
      var ref := codec.parseMessageID(targetID).value;
      h == Handled([AddReaction(emojiID, ref.channelID, ref.timestamp)],
                   Propagate(api.addReaction(emojiID, ref.channelID, ref.timestamp)))
  {
    if !s.hasClient then Handled([], Some(NotLoggedIn))
    else match codec.parseMessageID(targetID)
      case None => Handled([], Some(InvalidMessageID))
      case Some(ref) =>
        Handled([AddReaction(emojiID, ref.channelID, ref.timestamp)],
                Propagate(api.addReaction(emojiID, ref.channelID, ref.timestamp)))
  }

  /** `HandleMatrixReactionRemove`: remove the reaction; Slack's "reaction" error (the
      reaction is already gone) counts as success. */
  function HandleMatrixReactionRemove(s: SessionView, codec: Codec, api: SlackApi, targetID: string, emojiID: string)
    : (h: Handled)
    ensures !s.hasClient ==> h == Handled([], Some(NotLoggedIn))
    ensures s.hasClient && codec.parseMessageID(targetID).None? ==> h == Handled([], Some(InvalidMessageID))
    ensures s.hasClient && codec.parseMessageID(targetID).Some? ==>
      var ref := codec.parseMessageID(targetID).value;
      var e := api.removeReaction(emojiID, ref.channelID, ref.timestamp);
      && h.calls == [RemoveReaction(emojiID, ref.channelID, ref.timestamp)]
      && (h.err.None? <==> e.None? || e.value.text == "reaction")
      && (h.err.Some? ==> h.err.value == Propagated(e.value))
  {
    if !s.hasClient then Handled([], Some(NotLoggedIn))
    else match codec.parseMessageID(targetID)
      case None => Handled([], Some(InvalidMessageID))
      case Some(ref) =>
        var e := api.removeReaction(emojiID, ref.channelID, ref.timestamp);
        Handled([RemoveReaction(emojiID, ref.channelID, ref.timestamp)],
                if e.Some? && e.value.text != "reaction" then Some(Propagated(e.value)) else None)
  }

  // ---------------------------------------------------------------------------
  // Receipts, typing, room name and topic

  /** `HandleMatrixReadReceipt`: mark the exact message when the receipt names one,
      otherwise the last bridged message at or before the read-up-to time, if any.
      `lastPartAtOrBefore` is the bridge database's answer for the portal. */
  function HandleMatrixReadReceipt(s: SessionView, codec: Codec, api: SlackApi, exactMessage: Option<string>,
                                   lastPartAtOrBefore: Result<Option<string>, ApiError>): (h: Handled)
    ensures !s.hasClient ==> h == Handled([], Some(NotLoggedIn))
    ensures s.hasClient && !s.isRealUser ==> h == Handled([], None)
    ensures |h.calls| <= 1
    ensures h.calls != [] ==> h.calls[0].MarkConversation?
    ensures s.hasClient && s.isRealUser && exactMessage.Some? ==>
      match codec.parseMessageID(exactMessage.value)
      case None => h == Handled([], Some(InvalidMessageID))
      case Some(ref) =>
        h == Handled([MarkConversation(ref.channelID, ref.timestamp)],
                     Propagate(api.markConversation(ref.channelID, ref.timestamp)))
    ensures s.hasClient && s.isRealUser && exactMessage.None? ==>
      match lastPartAtOrBefore
      case Err(e) => h == Handled([], Some(Propagated(e)))
      case Ok(None) => h == Handled([], None)
      case Ok(Some(id)) =>
        if codec.parseMessageID(id).None? then h == Handled([], Some(InvalidMessageID))
        else
          var ref := codec.parseMessageID(id).value;
          h == Handled([MarkConversation(ref.channelID, ref.timestamp)],
                       Propagate(api.markConversation(ref.channelID, ref.timestamp)))
  {
    if !s.hasClient then Handled([], Some(NotLoggedIn))
    else if !s.isRealUser then Handled([], None)
    else if exactMessage.Some? then MarkMessage(codec, api, exactMessage.value)
    else match lastPartAtOrBefore
      case Err(e) => Handled([], Some(Propagated(e)))
      case Ok(None) => Handled([], None)
      case Ok(Some(id)) => MarkMessage(codec, api, id)
  }

  function MarkMessage(codec: Codec, api: SlackApi, messageID: string): Handled {
    match codec.parseMessageID(messageID)
    case None => Handled([], Some(InvalidMessageID))
    case Some(ref) =>
      Handled([MarkConversation(ref.channelID, ref.timestamp)], Propagate(api.markConversation(ref.channelID, ref.timestamp)))
  }

  /** `HandleMatrixTyping`: send a typing indicator; an undecodable portal is silently skipped. */
  function HandleMatrixTyping(s: SessionView, codec: Codec, portalID: string): (h: Handled)
    ensures !s.hasClient ==> h == Handled([], Some(NotLoggedIn))
    ensures s.hasClient ==> h.err.None?
    ensures h.calls != [] <==> s.hasClient && s.isRealUser && ChannelOf(codec, portalID) != ""
    ensures h.calls != [] ==> h.calls == [SendTyping(ChannelOf(codec, portalID))]
  {
    if !s.hasClient then Handled([], Some(NotLoggedIn))
    else if !s.isRealUser then Handled([], None)
    else
      var channelID := ChannelOf(codec, portalID);
      if channelID == "" then Handled([], None) else Handled([SendTyping(channelID)], None)
  }

  /** The room name and topic handlers return (err == nil, err). */
  datatype Changed = Changed(calls: seq<ApiCall>, ok: bool, err: Option<Error>)

  /** `HandleMatrixRoomName`: rename the conversation. There is no logged-in guard: with
      a nil client the API call dereferences it. */
  function HandleMatrixRoomName(s: SessionView, codec: Codec, api: SlackApi, portalID: string, name: string)
    : (c: Changed)
    ensures c.ok <==> c.err.None?
    ensures ChannelOf(codec, portalID) == "" ==> c == Changed([], false, Some(InvalidChannelID))
    ensures ChannelOf(codec, portalID) != "" && !s.hasClient ==> c.err == Some(NilClientPanic)
    ensures ChannelOf(codec, portalID) != "" && s.hasClient ==>
      var channelID := ChannelOf(codec, portalID);
      && c.calls == [RenameConversation(channelID, name)]
      && c.err == Propagate(api.renameConversation(channelID, name))
  {
    var channelID := ChannelOf(codec, portalID);
    if channelID == "" then Changed([], false, Some(InvalidChannelID))
    else if !s.hasClient then Changed([RenameConversation(channelID, name)], false, Some(NilClientPanic))
    else
      var e := api.renameConversation(channelID, name);
      Changed([RenameConversation(channelID, name)], e.None?, Propagate(e))
  }

  /** `HandleMatrixRoomTopic`: set the conversation topic, with the same missing guard. */
  function HandleMatrixRoomTopic(s: SessionView, codec: Codec, api: SlackApi, portalID: string, topic: string)
    : (c: Changed)
    ensures c.ok <==> c.err.None?
    ensures ChannelOf(codec, portalID) == "" ==> c == Changed([], false, Some(InvalidChannelID))
    ensures ChannelOf(codec, portalID) != "" && !s.hasClient ==> c.err == Some(NilClientPanic)
    ensures ChannelOf(codec, portalID) != "" && s.hasClient ==>
      var channelID := ChannelOf(codec, portalID);
      && c.calls == [SetTopic(channelID, topic)]
      && c.err == Propagate(api.setTopic(channelID, topic))
  {
    var channelID := ChannelOf(codec, portalID);
    if channelID == "" then Changed([], false, Some(InvalidChannelID))
    else if !s.hasClient then Changed([SetTopic(channelID, topic)], false, Some(NilClientPanic))
    else
      var e := api.setTopic(channelID, topic);
      Changed([SetTopic(channelID, topic)], e.None?, Propagate(e))
  }

  /** Every handler with a logged-in guard fails with `NotLoggedIn`, before any call,
      when the session has no client. */
  lemma NotLoggedInBeforeAnyCall(s: SessionView, codec: Codec, api: SlackApi, id: string, emojiID: string,
                                 exact: Option<string>, last: Result<Option<string>, ApiError>,
                                 converted: Result<Converted, ApiError>)
    requires !s.hasClient
    ensures MessageResult(s, codec, api, id, converted) == Err(NotLoggedIn)
    ensures HandleMatrixMessageRemove(s, codec, api, id) == Handled([], Some(NotLoggedIn))
    ensures HandleMatrixReaction(s, codec, api, id, emojiID) == Handled([], Some(NotLoggedIn))
    ensures HandleMatrixReactionRemove(s, codec, api, id, emojiID) == Handled([], Some(NotLoggedIn))
    ensures HandleMatrixReadReceipt(s, codec, api, exact, last) == Handled([], Some(NotLoggedIn))
    ensures HandleMatrixTyping(s, codec, id) == Handled([], Some(NotLoggedIn))
  {
  }
}
