/** The session lifecycle of one Slack login: loading it from the bridge database,
    connecting (boot call, team portal, background tasks), disconnecting, invalidating
    the credentials, consuming the real-time event stream, and the channel sync. The
    login, the bridge and the client are objects whose fields these methods update;
    the web API and the bridge's portal directory are collaborators in `Services`. */
module Session {
  import opened SlackTypes
  import opened Strings
  import SlackEvents
  import ChannelSync

  /** A value of the login's `Metadata.Extra` map: a JSON string, or anything else. */
  datatype ExtraValue = JsonString(s: string) | JsonOther

  /** The type assertion `Extra[key].(string)`: the string, when the entry is one. */
  function StringExtra(extra: map<string, ExtraValue>, key: string): Option<string> {
    if key in extra && extra[key].JsonString? then Some(extra[key].s) else None
  }

  /** `v, _ := Extra[key].(string)`: the string, or "" when the assertion fails. */
  function StringOrEmpty(extra: map<string, ExtraValue>, key: string): string {
    var v := StringExtra(extra, key);
    if v.Some? then v.value else ""
  }

  /** `*slack.Client` as `makeSlackClient` builds it: the token, and the "d" cookie when there is one. */
  datatype ApiClient = ApiClient(token: string, cookie: Option<string>)

  function MakeSlackClient(token: string, cookieToken: string): (c: ApiClient)
    ensures c.token == token
    ensures c.cookie.Some? <==> cookieToken != ""
    ensures c.cookie.Some? ==> c.cookie.value == cookieToken
  {
    ApiClient(token, if cookieToken != "" then Some(cookieToken) else None)
  }

  /** `*slack.RTM`, made from a client. */
  datatype RtmHandle = RtmHandle(client: ApiClient)

  /** `*slack.ClientBootResponse`, opaque here. */
  datatype BootResponse = BootResponse(payload: string)

  /** The goroutines `connect` starts. */
  datatype Task = ConsumeEventsTask | ManageConnectionTask | SyncEmojisTask | SyncChannelsTask

  function StartedTasks(): seq<Task> {
    [ConsumeEventsTask, ManageConnectionTask, SyncEmojisTask, SyncChannelsTask]
  }

  /** The collaborators of a session. */
  datatype Services = Services(
    codec: Codec,
    findPortalReceiver: (string, string) -> Result<PortalKey, ApiError>,
    makeEventSender: string -> EventSender,
    getEmoji: string -> (string, bool),
    fetchChatInfo: string -> Result<ChatInfo, ApiError>,
    customEmojiReactions: bool,
    unlockedGetPortal: PortalKey -> Result<Portal, ApiError>,        // UnlockedGetPortalByID
    clientBoot: ApiClient -> Result<BootResponse, ApiError>,          // ClientBootContext
    teamInfo: Option<BootResponse> -> ChatInfo,                       // getTeamInfo
    createRoom: (PortalKey, Option<ChatInfo>) -> Result<string, ApiError>,  // CreateMatrixRoom: the new MXID
    conversationCount: int,                                           // Config.Backfill.ConversationCount
    conversations: ChannelSync.ConversationList,
    userPortals: Result<seq<PortalKey>, ApiError>,                    // UserPortal.GetAllForLogin
    directory: ChannelSync.PortalDirectory)

  /** The team portal's key: the team portal ID and no receiver. */
  function TeamPortalKey(codec: Codec, teamID: string): PortalKey {
    PortalKey(codec.makeTeamPortalID(teamID), "")
  }

  /** The credential map after `invalidateSession`: both tokens overwritten with "". */
  function InvalidatedExtra(extra: map<string, ExtraValue>): (r: map<string, ExtraValue>)
    ensures StringExtra(r, "token") == Some("") && StringExtra(r, "cookie_token") == Some("")
    ensures forall k :: k in extra && k != "token" && k != "cookie_token" ==> k in r && r[k] == extra[k]
    ensures r.Keys == extra.Keys + {"token", "cookie_token"}
  {
    extra["token" := JsonString("")]["cookie_token" := JsonString("")]
  }

  /** Invalidation stores the empty string, which is still a string: loading the login
      again builds a client (with an empty token) instead of a logged-out session. */
  lemma ReloadAfterInvalidationHasClient(extra: map<string, ExtraValue>)
    ensures StringExtra(InvalidatedExtra(extra), "token").Some?
    ensures MakeSlackClient(StringOrEmpty(InvalidatedExtra(extra), "token"),
                            StringOrEmpty(InvalidatedExtra(extra), "cookie_token")) == ApiClient("", None)
  {
  }

  /** `Connect`'s reaction to a failed boot call: the two credential errors invalidate
      the session with a "slack-" code made from the error text, '_' turned into '-';
      anything else is reported as an unknown fetch error and the session stays. */
  function BootFailureAction(e: ApiError): (a: SlackEvents.Action)
    ensures a.Invalidate? || a.SendState?
    ensures a.Invalidate? <==> e.text == "user_removed_from_team" || e.text == "invalid_auth"
    ensures e.text == "invalid_auth" ==>
      a == SlackEvents.Invalidate(BridgeState(StateBadCredentials, "slack-invalid-auth", ""))
    ensures e.text == "user_removed_from_team" ==>
      a == SlackEvents.Invalidate(BridgeState(StateBadCredentials, "slack-user-removed-from-team", ""))
    ensures a.SendState? ==>
      a.state == BridgeState(StateUnknownError, "slack-unknown-fetch-error", "Unknown error from Slack: " + e.text)
  {
    if e.text == "user_removed_from_team" || e.text == "invalid_auth" then
      var code := "slack-" + ReplaceAll(e.text, '_', '-');
      if e.text == "invalid_auth" then
        InvalidAuthCode();
        assert code == "slack-invalid-auth";
        SlackEvents.Invalidate(BridgeState(StateBadCredentials, code, ""))
      else
        RemovedFromTeamCode();
        assert code == "slack-user-removed-from-team";
        SlackEvents.Invalidate(BridgeState(StateBadCredentials, code, ""))
    else
      SlackEvents.SendState(BridgeState(StateUnknownError, "slack-unknown-fetch-error", "Unknown error from Slack: " + e.text))
  }

  lemma InvalidAuthCode()
    ensures "slack-" + ReplaceAll("invalid_auth", '_', '-') == "slack-invalid-auth"
  {
    var r := ReplaceAll("invalid_auth", '_', '-');
    assert r[7] == '-';
  }

  lemma RemovedFromTeamCode()
    ensures "slack-" + ReplaceAll("user_removed_from_team", '_', '-') == "slack-user-removed-from-team"
  {
    var r := ReplaceAll("user_removed_from_team", '_', '-');
    assert r[4] == '-' && r[12] == '-' && r[17] == '-';
  }

  /** What `syncTeamPortal` does to the team portal. */
  datatype TeamSync = TeamSync(op: ChannelSync.PortalOp, portal: Portal, err: Option<Error>)

  /** `syncTeamPortal`: create the team's room, with the team info, when it has none;
      otherwise refresh the existing room's info. Only a failed creation is an error. */
  function TeamPortalSync(services: Services, teamPortal: Portal, boot: Option<BootResponse>): (r: TeamSync)
    ensures r.op.CreatePortalRoom? <==> teamPortal.mxid == ""
    ensures r.op.CreatePortalRoom? ==> r.op == ChannelSync.CreatePortalRoom(teamPortal.key, Some(services.teamInfo(boot)))
    ensures r.op.UpdatePortalInfo? ==> r.op == ChannelSync.UpdatePortalInfo(teamPortal.key, services.teamInfo(boot))
    ensures r.portal.key == teamPortal.key
    ensures r.err.Some? <==> teamPortal.mxid == "" && services.createRoom(teamPortal.key, Some(services.teamInfo(boot))).Err?
    ensures r.err.Some? || teamPortal.mxid != "" ==> r.portal == teamPortal
    ensures r.err.Some? ==> r.err.value.Propagated?
  {
    var info := services.teamInfo(boot);
    if teamPortal.mxid == "" then
      match services.createRoom(teamPortal.key, Some(info))
      case Err(e) => TeamSync(ChannelSync.CreatePortalRoom(teamPortal.key, Some(info)), teamPortal, Some(Propagated(e)))
      case Ok(mxid) => TeamSync(ChannelSync.CreatePortalRoom(teamPortal.key, Some(info)), Portal(teamPortal.key, mxid), None)
    else
      TeamSync(ChannelSync.UpdatePortalInfo(teamPortal.key, info), teamPortal, None)
  }

  /** The events queued and the states sent by one dispatched event. */
  function QueuedOf(a: SlackEvents.Action): seq<SlackEvents.RemoteEvent> {
    if a.Queue? then [a.event] else []
  }

  function StatesOf(a: SlackEvents.Action): seq<BridgeState> {
    if a.SendState? || a.Invalidate? then [a.state] else []
  }

  /** The events a stream of RTM events queues, in order. */
  function QueuedFrom(env: SlackEvents.Env, evts: seq<SlackEvents.RtmEvent>): seq<SlackEvents.RemoteEvent>
    decreases |evts|
  {
    if evts == [] then [] else QueuedFrom(env, evts[..|evts| - 1]) + QueuedOf(SlackEvents.Dispatch(env, evts[|evts| - 1]))
  }

  /** The bridge states a stream of RTM events sends, in order. */
  function StatesFrom(env: SlackEvents.Env, evts: seq<SlackEvents.RtmEvent>): seq<BridgeState>
    decreases |evts|
  {
    if evts == [] then [] else StatesFrom(env, evts[..|evts| - 1]) + StatesOf(SlackEvents.Dispatch(env, evts[|evts| - 1]))
  }

  /** Whether some event of the stream invalidates the session. */
  predicate InvalidatesAny(env: SlackEvents.Env, evts: seq<SlackEvents.RtmEvent>)
    decreases |evts|
  {
    evts != [] && (InvalidatesAny(env, evts[..|evts| - 1]) || SlackEvents.Dispatch(env, evts[|evts| - 1]).Invalidate?)
  }

  /** The credential snapshots a stream saves: one per invalidating event, each the
      blanked credential map (blanking twice changes nothing). */
  function SavedFrom(env: SlackEvents.Env, evts: seq<SlackEvents.RtmEvent>, extra: map<string, ExtraValue>)
    : seq<map<string, ExtraValue>>
    decreases |evts|
  {
    if evts == [] then []
    else SavedFrom(env, evts[..|evts| - 1], extra)
           + (if SlackEvents.Dispatch(env, evts[|evts| - 1]).Invalidate? then [InvalidatedExtra(extra)] else [])
  }

  /** A stream invalidates the session exactly when one of its events is an InvalidAuth
      event or a Connected event for another team or user, and it saves one snapshot
      per such event. */
  lemma {:induction false} InvalidatesAnyExactly(env: SlackEvents.Env, evts: seq<SlackEvents.RtmEvent>,
                                                 extra: map<string, ExtraValue>)
    ensures InvalidatesAny(env, evts) <==>
      exists i :: 0 <= i < |evts| &&
        (evts[i].InvalidAuthEvent? ||
         (evts[i].ConnectedEvent? && (evts[i].teamID != env.teamID || evts[i].userID != env.userID)))
    ensures InvalidatesAny(env, evts) <==> |SavedFrom(env, evts, extra)| > 0
    ensures forall j :: 0 <= j < |SavedFrom(env, evts, extra)| ==> SavedFrom(env, evts, extra)[j] == InvalidatedExtra(extra)
    decreases |evts|
  {
    if evts != [] {
      var init := evts[..|evts| - 1];
      InvalidatesAnyExactly(env, init, extra);
      if InvalidatesAny(env, init) {
        var i :| 0 <= i < |init| &&
          (init[i].InvalidAuthEvent? ||
           (init[i].ConnectedEvent? && (init[i].teamID != env.teamID || init[i].userID != env.userID)));
        assert evts[i] == init[i];
      }
      if exists i :: 0 <= i < |evts| &&
          (evts[i].InvalidAuthEvent? ||
           (evts[i].ConnectedEvent? && (evts[i].teamID != env.teamID || evts[i].userID != env.userID))) {
        var i :| 0 <= i < |evts| &&
          (evts[i].InvalidAuthEvent? ||
           (evts[i].ConnectedEvent? && (evts[i].teamID != env.teamID || evts[i].userID != env.userID)));
        if i < |init| {
          assert init[i] == evts[i];
        }
      }
    }
  }

  /** Blanking the credentials twice is blanking them once. */
  lemma InvalidatedExtraIdempotent(extra: map<string, ExtraValue>)
    ensures InvalidatedExtra(InvalidatedExtra(extra)) == InvalidatedExtra(extra)
  {
  }

  /** What handling events can change: the bridge's queue, the sent states, the
      credential map, its saved snapshots, and the session's client. */
  datatype Observed = Observed(
    queued: seq<SlackEvents.RemoteEvent>, states: seq<BridgeState>,
    extra: map<string, ExtraValue>, saved: seq<map<string, ExtraValue>>, client: Option<ApiClient>)

  /** The effect of carrying out one action. */
  function AfterAction(o: Observed, a: SlackEvents.Action): Observed {
    if a.Invalidate? then
      var blanked := InvalidatedExtra(o.extra);
      Observed(o.queued, o.states + [a.state], blanked, o.saved + [blanked], None)
    else
      Observed(o.queued + QueuedOf(a), o.states + StatesOf(a), o.extra, o.saved, o.client)
  }

  /** The effect of handling a stream of events in order. */
  function AfterStream(env: SlackEvents.Env, o: Observed, evts: seq<SlackEvents.RtmEvent>): Observed
    decreases |evts|
  {
    if evts == [] then o
    else AfterAction(AfterStream(env, o, evts[..|evts| - 1]), SlackEvents.Dispatch(env, evts[|evts| - 1]))
  }

  /** Handling a stream queues and sends what each event's dispatch yields, in order. */
  lemma {:induction false} AfterStreamQueues(env: SlackEvents.Env, o: Observed, evts: seq<SlackEvents.RtmEvent>)
    ensures AfterStream(env, o, evts).queued == o.queued + QueuedFrom(env, evts)
    ensures AfterStream(env, o, evts).states == o.states + StatesFrom(env, evts)
    decreases |evts|
  {
    if evts != [] {
      var init := evts[..|evts| - 1];
      AfterStreamQueues(env, o, init);
      var a := SlackEvents.Dispatch(env, evts[|evts| - 1]);
      assert AfterStream(env, o, evts) == AfterAction(AfterStream(env, o, init), a);
    }
  }

  /** Handling a stream blanks the credentials and drops the client iff some event
      invalidated the session, and saves one blanked snapshot per invalidating event. */
  lemma {:induction false} AfterStreamCredentials(env: SlackEvents.Env, o: Observed, evts: seq<SlackEvents.RtmEvent>)
    ensures var r := AfterStream(env, o, evts);
      && r.extra == (if InvalidatesAny(env, evts) then InvalidatedExtra(o.extra) else o.extra)
      && r.saved == o.saved + SavedFrom(env, evts, o.extra)
      && r.client == (if InvalidatesAny(env, evts) then None else o.client)
    decreases |evts|
  {
    if evts != [] {
      var init := evts[..|evts| - 1];
      AfterStreamCredentials(env, o, init);
      InvalidatedExtraIdempotent(o.extra);
      var a := SlackEvents.Dispatch(env, evts[|evts| - 1]);
      assert AfterStream(env, o, evts) == AfterAction(AfterStream(env, o, init), a);
    }
  }

  /** Only chat events that wrap successfully reach the queue, at most one per event. */
  lemma {:induction false} QueuedOnlyWrapped(env: SlackEvents.Env, evts: seq<SlackEvents.RtmEvent>)
    ensures |QueuedFrom(env, evts)| <= |evts|
    ensures forall e :: e in QueuedFrom(env, evts) ==>
      exists i :: 0 <= i < |evts| && SlackEvents.IsChatEvent(evts[i]) && SlackEvents.WrapEvent(env, evts[i]) == Ok(e)
    decreases |evts|
  {
    if evts != [] {
      var init := evts[..|evts| - 1];
      QueuedOnlyWrapped(env, init);
      forall e | e in QueuedFrom(env, evts)
        ensures exists i :: 0 <= i < |evts| && SlackEvents.IsChatEvent(evts[i]) && SlackEvents.WrapEvent(env, evts[i]) == Ok(e)
      {
        if e in QueuedFrom(env, init) {
          var i :| 0 <= i < |init| && SlackEvents.IsChatEvent(init[i]) && SlackEvents.WrapEvent(env, init[i]) == Ok(e);
          assert evts[i] == init[i];
        } else {
          assert e in QueuedOf(SlackEvents.Dispatch(env, evts[|evts| - 1]));
        }
      }
    }
  }

  /** The bridge framework's side effects: the remote-event queue and the portal operations. */
  class Bridge {
    var queued: seq<SlackEvents.RemoteEvent>
    var portalOps: seq<ChannelSync.PortalOp>

    constructor ()
      ensures queued == [] && portalOps == []
    {
      queued := [];
      portalOps := [];
    }
  }

  /** `bridgev2.UserLogin`: its ID, its credential map, the snapshots saved to the
      database, the bridge states it sent and its network client. */
  class UserLogin {
    const id: string
    const bridge: Bridge
    var extra: map<string, ExtraValue>
    var saved: seq<map<string, ExtraValue>>
    var states: seq<BridgeState>
    var client: SlackClient?

    constructor (id: string, bridge: Bridge, extra: map<string, ExtraValue>)
      ensures this.id == id && this.bridge == bridge && this.extra == extra
      ensures saved == [] && states == [] && client == null
    {
      this.id := id;
      this.bridge := bridge;
      this.extra := extra;
      saved := [];
      states := [];
      client := null;
    }
  }

  /** `SlackConnector.LoadUserLogin`: team and user come from the login ID; a client
      (and its RTM) exists exactly when the stored token is a string; the team portal
      must be found, or the login gets no client at all. */
  method LoadUserLogin(services: Services, login: UserLogin) returns (err: Option<Error>)
    modifies login
    ensures login.extra == old(login.extra) && login.saved == old(login.saved) && login.states == old(login.states)
    ensures var teamID := services.codec.parseUserLoginID(login.id).0;
      var lookup := services.unlockedGetPortal(TeamPortalKey(services.codec, teamID));
      && (lookup.Err? ==> err == Some(TeamPortalFailed(lookup.error)) && login.client == old(login.client))
      && (lookup.Ok? ==> err.None? && login.client != null && fresh(login.client) && login.client.teamPortal == lookup.value)
    ensures err.None? ==>
      var sc := login.client;
      var token := StringExtra(login.extra, "token");
      && sc.login == login && sc.services == services && sc.Valid()
      && sc.teamID == services.codec.parseUserLoginID(login.id).0
      && sc.userID == services.codec.parseUserLoginID(login.id).1
      && (sc.client.Some? <==> token.Some?)
      && (token.Some? ==> sc.client == Some(MakeSlackClient(token.value, StringOrEmpty(login.extra, "cookie_token"))))
      && sc.bootResp.None? && sc.tasks == []
  {
    var ids := services.codec.parseUserLoginID(login.id);
    var token := StringExtra(login.extra, "token");
    var client: Option<ApiClient> := None;
    if token.Some? {
      client := Some(MakeSlackClient(token.value, StringOrEmpty(login.extra, "cookie_token")));
    }
    var lookup := services.unlockedGetPortal(TeamPortalKey(services.codec, ids.0));
    if lookup.Err? {
      return Some(TeamPortalFailed(lookup.error));
    }
    var sc := new SlackClient(login, services, ids.0, ids.1, client, lookup.value);
    login.client := sc;
    err := None;
  }

  /** `SlackClient`: the session of one login. `client` and `rtm` are nil together. */
  class SlackClient {
    const login: UserLogin
    const services: Services
    const teamID: string
    const userID: string
    var client: Option<ApiClient>
    var rtm: Option<RtmHandle>
    var bootResp: Option<BootResponse>
    var teamPortal: Portal
    var tasks: seq<Task>

    /** There is an RTM connection exactly when there is a client, made from it. */
    predicate Valid()
      reads this
    {
      && (rtm.Some? <==> client.Some?)
      && (rtm.Some? ==> rtm.value == RtmHandle(client.value))
    }

    constructor (login: UserLogin, services: Services, teamID: string, userID: string,
                 client: Option<ApiClient>, teamPortal: Portal)
      ensures this.login == login && this.services == services && this.teamID == teamID && this.userID == userID
      ensures this.client == client && this.teamPortal == teamPortal
      ensures bootResp.None? && tasks == [] && Valid()
    {
      this.login := login;
      this.services := services;
      this.teamID := teamID;
      this.userID := userID;
      this.client := client;
      this.rtm := if client.Some? then Some(RtmHandle(client.value)) else None;
      this.teamPortal := teamPortal;
      this.bootResp := None;
      this.tasks := [];
    }

    /** The identity and collaborators the event translator sees. */
    function EventEnv(): SlackEvents.Env {
      SlackEvents.Env(services.codec, teamID, userID, login.id, services.findPortalReceiver,
                      services.directory.makePortalKey, services.makeEventSender, services.getEmoji,
                      services.fetchChatInfo, services.customEmojiReactions)
    }

    /** `IsLoggedIn`: there is a client. */
    function IsLoggedIn(): (r: bool)
      reads this
      ensures r <==> client.Some?
    {
      client.Some?
    }

    /** The part of the state that handling events changes. */
    function Observe(): Observed
      reads this, login, login.bridge
    {
      Observed(login.bridge.queued, login.states, login.extra, login.saved, client)
    }

    /** `Disconnect`: drop the RTM connection (its own error is only logged) and the client. */
    method Disconnect()
      modifies this
      ensures client.None? && rtm.None? && !IsLoggedIn() && Valid()
      ensures bootResp == old(bootResp) && teamPortal == old(teamPortal) && tasks == old(tasks)
    {
      if rtm.Some? {
        rtm := None;
      }
      client := None;
    }

    /** `invalidateSession`: blank both tokens, save the login (a failed save is only
      logged), disconnect, then send the given state. */
    method InvalidateSession(state: BridgeState)
      modifies this, login
      ensures login.extra == InvalidatedExtra(old(login.extra))
      ensures login.saved == old(login.saved) + [login.extra]
      ensures login.states == old(login.states) + [state]
      ensures login.client == old(login.client)
      ensures client.None? && rtm.None? && !IsLoggedIn() && Valid()
      ensures bootResp == old(bootResp) && teamPortal == old(teamPortal) && tasks == old(tasks)
    {
      login.extra := login.extra["token" := JsonString("")];
      login.extra := login.extra["cookie_token" := JsonString("")];
      login.saved := login.saved + [login.extra];
      Disconnect();
      login.states := login.states + [state];
    }

    /** `syncTeamPortal`. */
    method SyncTeamPortal() returns (err: Option<Error>)
      modifies this, login.bridge
      ensures var ts := TeamPortalSync(services, old(teamPortal), bootResp);
        && login.bridge.portalOps == old(login.bridge.portalOps) + [ts.op]
        && teamPortal == ts.portal && err == ts.err
      ensures login.bridge.queued == old(login.bridge.queued)
      ensures client == old(client) && rtm == old(rtm) && bootResp == old(bootResp) && tasks == old(tasks)
    {
      var info := services.teamInfo(bootResp);
      if teamPortal.mxid == "" {
        login.bridge.portalOps := login.bridge.portalOps + [ChannelSync.CreatePortalRoom(teamPortal.key, Some(info))];
        var created := services.createRoom(teamPortal.key, Some(info));
        if created.Err? {
          return Some(Propagated(created.error));
        }
        teamPortal := Portal(teamPortal.key, created.value);
      } else {
        login.bridge.portalOps := login.bridge.portalOps + [ChannelSync.UpdatePortalInfo(teamPortal.key, info)];
      }
      err := None;
    }

    /** `connect`: keep the boot response, sync the team portal, and only when that
      succeeded start the four background tasks. */
    method ConnectWith(boot: BootResponse) returns (err: Option<Error>)
      modifies this, login.bridge
      ensures bootResp == Some(boot)
      ensures var ts := TeamPortalSync(services, old(teamPortal), Some(boot));
        && err == ts.err && teamPortal == ts.portal
        && login.bridge.portalOps == old(login.bridge.portalOps) + [ts.op]
        && tasks == old(tasks) + (if ts.err.None? then StartedTasks() else [])
      ensures login.bridge.queued == old(login.bridge.queued)
      ensures client == old(client) && rtm == old(rtm)
    {
      bootResp := Some(boot);
      err := SyncTeamPortal();
      if err.Some? {
        return;
      }
      tasks := tasks + StartedTasks();
    }

    /** `Connect`: the boot call, its failure classified by `BootFailureAction` and
      returned, or `connect` with the response. With no client the call dereferences nil. */
    method Connect() returns (err: Option<Error>)
      requires Valid()
      modifies this, login, login.bridge
      ensures Valid()
      ensures old(client).None? ==>
        err == Some(NilClientPanic) && unchanged(this) && unchanged(login) && unchanged(login.bridge)
      ensures old(client).Some? && services.clientBoot(old(client).value).Err? ==>
        var e := services.clientBoot(old(client).value).error;
        var a := BootFailureAction(e);
        && err == Some(Propagated(e))
        && tasks == old(tasks) && bootResp == old(bootResp) && teamPortal == old(teamPortal)
        && unchanged(login.bridge) && login.client == old(login.client)
        && login.states == old(login.states) + [a.state]
        && (a.Invalidate? ==>
              && client.None? && login.extra == InvalidatedExtra(old(login.extra))
              && login.saved == old(login.saved) + [login.extra])
        && (a.SendState? ==> client == old(client) && login.extra == old(login.extra) && login.saved == old(login.saved))
      ensures old(client).Some? && services.clientBoot(old(client).value).Ok? ==>
        var ts := TeamPortalSync(services, old(teamPortal), bootResp);
        && bootResp == Some(services.clientBoot(old(client).value).value)
        && err == ts.err && teamPortal == ts.portal
        && login.bridge.portalOps == old(login.bridge.portalOps) + [ts.op]
        && tasks == old(tasks) + (if ts.err.None? then StartedTasks() else [])
        && client == old(client) && login.states == old(login.states) && login.extra == old(login.extra)
        && login.saved == old(login.saved) && login.client == old(login.client)
        && login.bridge.queued == old(login.bridge.queued)
    {
      if client.None? {
        return Some(NilClientPanic);
      }
      var boot := services.clientBoot(client.value);
      if boot.Err? {
        var a := BootFailureAction(boot.error);
        if a.Invalidate? {
          InvalidateSession(a.state);
        } else {
          login.states := login.states + [a.state];
        }
        return Some(Propagated(boot.error));
      }
      err := ConnectWith(boot.value);
    }

    /** `HandleSlackEvent`: carry out the action `Dispatch` chose. */
    method HandleSlackEvent(evt: SlackEvents.RtmEvent)
      requires Valid()
      modifies this, login, login.bridge
      ensures Valid()
      ensures var a := SlackEvents.Dispatch(EventEnv(), evt);
        && login.bridge.queued == old(login.bridge.queued) + QueuedOf(a)
        && login.states == old(login.states) + StatesOf(a)
        && login.extra == (if a.Invalidate? then InvalidatedExtra(old(login.extra)) else old(login.extra))
        && login.saved == old(login.saved) + (if a.Invalidate? then [InvalidatedExtra(old(login.extra))] else [])
        && client == (if a.Invalidate? then None else old(client))
      ensures login.client == old(login.client)
      ensures login.bridge.portalOps == old(login.bridge.portalOps)
      ensures tasks == old(tasks) && teamPortal == old(teamPortal) && bootResp == old(bootResp)
      ensures Observe() == AfterAction(old(Observe()), SlackEvents.Dispatch(EventEnv(), evt))
    {
      var a := SlackEvents.Dispatch(EventEnv(), evt);
      match a
      case SendState(state) => login.states := login.states + [state];
      case Invalidate(state) => InvalidateSession(state);
      case Queue(wrapped) => login.bridge.queued := login.bridge.queued + [wrapped];
      case DropFailed(_) =>
      case Ignore =>
      case WarnUnrecognized =>
    }

    /** `consumeEvents`, sequentially: handle each event of the stream in order. */
    method ConsumeEvents(evts: seq<SlackEvents.RtmEvent>)
      requires Valid()
      modifies this, login, login.bridge
      ensures Valid()
      ensures login.bridge.queued == old(login.bridge.queued) + QueuedFrom(EventEnv(), evts)
      ensures login.states == old(login.states) + StatesFrom(EventEnv(), evts)
      ensures login.bridge.portalOps == old(login.bridge.portalOps)
      ensures login.extra == (if InvalidatesAny(EventEnv(), evts) then InvalidatedExtra(old(login.extra)) else old(login.extra))
      ensures login.saved == old(login.saved) + SavedFrom(EventEnv(), evts, old(login.extra))
      ensures client == (if InvalidatesAny(EventEnv(), evts) then None else old(client))
      ensures login.client == old(login.client)
      ensures tasks == old(tasks) && teamPortal == old(teamPortal) && bootResp == old(bootResp)
    {
      for n := 0 to |evts|
        invariant Valid()
        invariant Observe() == AfterStream(EventEnv(), old(Observe()), evts[..n])
        invariant login.bridge.portalOps == old(login.bridge.portalOps) && login.client == old(login.client)
        invariant tasks == old(tasks) && teamPortal == old(teamPortal) && bootResp == old(bootResp)
      {
        assert evts[..n + 1][..n] == evts[..n];
        HandleSlackEvent(evts[n]);
      }
      assert evts[..|evts|] == evts;
      AfterStreamQueues(EventEnv(), old(Observe()), evts);
      AfterStreamCredentials(EventEnv(), old(Observe()), evts);
    }

    /** `SyncChannels`: fetch (unless the token is an "xoxs" one), reconcile with the
      existing portals, then create rooms for the rest in last-read order. A failed page
      fetch or portal listing abandons the sync before any portal is touched. */
    method SyncChannels()
      modifies login.bridge
      ensures login.bridge.queued == old(login.bridge.queued)
      ensures var fetched := ChannelSync.ServerChannels(StringOrEmpty(login.extra, "token"),
                                                        services.conversationCount, services.conversations);
        if fetched.channels.None? || services.userPortals.Err? then
          login.bridge.portalOps == old(login.bridge.portalOps)
        else
          var portals := services.userPortals.value;
          var remaining := ChannelSync.Unclaimed(services.codec, services.directory, portals, fetched.channels.value);
          exists order ::
            && ChannelSync.Enumerates(order, remaining) && ChannelSync.SortedByLastRead(order)
            && login.bridge.portalOps == old(login.bridge.portalOps)
                 + ChannelSync.Refreshes(services.codec, services.directory, portals)
                 + ChannelSync.Creations(services.directory, order)
    {
      var token := StringOrEmpty(login.extra, "token");
      var serverInfo, _, ok := ChannelSync.FetchServerChannels(token, services.conversationCount, services.conversations);
      if !ok || services.userPortals.Err? {
        return;
      }
      var portals := services.userPortals.value;
      var remaining, refreshOps := ChannelSync.ReconcileExisting(services.codec, services.directory, portals, serverInfo);
      ChannelSync.UnclaimedKeys(services.codec, services.directory, portals, serverInfo);
      var remainingChannels := ChannelSync.CollectRemaining(remaining);
      ghost var collected := remainingChannels[..];
      ChannelSync.SortByLastRead(remainingChannels);
      ChannelSync.EnumeratesReordered(collected, remainingChannels[..], remaining);
      var createOps := ChannelSync.CreateRooms(services.directory, remainingChannels);
      login.bridge.portalOps := login.bridge.portalOps + refreshOps + createOps;
    }
  }
}
