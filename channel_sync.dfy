/** Channel reconciliation after connecting (`SyncChannels`): fetch the conversation
    list page by page under a shrinking budget, keep the candidates in a map keyed by
    channel ID (closed direct messages excluded), drop every channel whose portal
    already has a Matrix room (refreshing that room's info), then create rooms for the
    rest in ascending order of their last-read timestamp. Each stage is a loop proved
    against a specification function; the directory and the web API are parameters. */
module ChannelSync {
  import opened SlackTypes
  import opened Strings

  // ---------------------------------------------------------------------------
  // Fetching the conversation list

  /** One request of `GetConversationsForUser` (all four conversation types). */
  datatype PageRequest = PageRequest(limit: int, cursor: string)

  /** A page of conversations and the cursor of the next page ("" at the end). */
  datatype Page = Page(channels: seq<Channel>, nextCursor: string)

  /** The web API's answer to each request. */
  type ConversationList = PageRequest -> Result<Page, ApiError>

  /** The limit of the next request: 100 while more than 200 conversations remain in
      the budget, otherwise exactly what remains. */
  function RequestLimit(budget: int): (limit: int)
    requires budget > 0
    ensures 0 < limit <= budget && limit <= 200
    ensures budget <= 200 ==> limit == budget
    ensures budget > 200 ==> limit == 100
  {
    if budget > 200 then 100 else budget
  }

  /** A direct message that is not "open": it has no latest message, or that message has no subtype. */
  predicate IsClosedIM(c: Channel) {
    c.isIM && (c.latestSubType.None? || c.latestSubType.value == "")
  }

  /** Every entry is stored under its own channel ID. */
  predicate KeyedById(m: map<string, Channel>) {
    forall k :: k in m ==> m[k].id == k
  }

  /** No closed direct message is a candidate. */
  predicate NoClosedIM(m: map<string, Channel>) {
    forall k :: k in m ==> !IsClosedIM(m[k])
  }

  /** Some channel of `cs` with ID `k` is kept. */
  predicate Offers(cs: seq<Channel>, k: string) {
    exists i :: 0 <= i < |cs| && cs[i].id == k && !IsClosedIM(cs[i])
  }

  /** The candidate map after one page: each kept channel is stored under its ID, a
      later channel with the same ID replacing an earlier one. */
  function AddOpen(acc: map<string, Channel>, cs: seq<Channel>): map<string, Channel>
    decreases |cs|
  {
    if cs == [] then acc
    else
      var before := AddOpen(acc, cs[..|cs| - 1]);
      var c := cs[|cs| - 1];
      if IsClosedIM(c) then before else before[c.id := c]
  }

  /** The keys after a page are the old keys plus the IDs of the kept channels. */
  lemma {:induction false} AddOpenKeys(acc: map<string, Channel>, cs: seq<Channel>)
    ensures forall k :: k in AddOpen(acc, cs) <==> k in acc || Offers(cs, k)
    decreases |cs|
  {
    if cs != [] {
      var init := cs[..|cs| - 1];
      AddOpenKeys(acc, init);
      forall k ensures Offers(cs, k) <==> Offers(init, k) || (cs[|cs| - 1].id == k && !IsClosedIM(cs[|cs| - 1])) {
        if Offers(cs, k) {
          var i :| 0 <= i < |cs| && cs[i].id == k && !IsClosedIM(cs[i]);
          if i < |cs| - 1 {
            assert init[i] == cs[i];
          }
        }
        if Offers(init, k) {
          var i :| 0 <= i < |init| && init[i].id == k && !IsClosedIM(init[i]);
          assert cs[i] == init[i];
        }
      }
    }
  }

  /** A page only ever stores kept channels under their own IDs; old entries it does not
      replace are left as they were. */
  lemma {:induction false} AddOpenValues(acc: map<string, Channel>, cs: seq<Channel>)
    ensures forall k :: k in AddOpen(acc, cs) ==>
      || (k in acc && AddOpen(acc, cs)[k] == acc[k])
      || (AddOpen(acc, cs)[k] in cs && AddOpen(acc, cs)[k].id == k && !IsClosedIM(AddOpen(acc, cs)[k]))
    decreases |cs|
  {
    if cs != [] {
      var init := cs[..|cs| - 1];
      AddOpenValues(acc, init);
      forall k | k in AddOpen(acc, init) && AddOpen(acc, init)[k] in init
        ensures AddOpen(acc, init)[k] in cs
      {
        var i :| 0 <= i < |init| && init[i] == AddOpen(acc, init)[k];
        assert cs[i] == init[i];
      }
    }
  }

  /** Storing pages into a map keyed by channel ID with no closed DMs keeps it so. */
  lemma AddOpenKeepsInvariant(acc: map<string, Channel>, cs: seq<Channel>)
    ensures KeyedById(acc) && NoClosedIM(acc) ==> KeyedById(AddOpen(acc, cs)) && NoClosedIM(AddOpen(acc, cs))
  {
    AddOpenValues(acc, cs);
  }

  /** Storing two pages one after the other is storing their concatenation. */
  lemma {:induction false} AddOpenConcat(acc: map<string, Channel>, p: seq<Channel>, q: seq<Channel>)
    ensures AddOpen(acc, p + q) == AddOpen(AddOpen(acc, p), q)
    decreases |q|
  {
    if q == [] {
      assert p + q == p;
    } else {
      var init := q[..|q| - 1];
      assert (p + q)[..|p + q| - 1] == p + init;
      assert (p + q)[|p + q| - 1] == q[|q| - 1];
      AddOpenConcat(acc, p, init);
    }
  }

  /** The entry of an offered ID is the LAST kept channel with that ID: later channels
      replace earlier ones. */
  lemma {:induction false} AddOpenLatest(acc: map<string, Channel>, cs: seq<Channel>, k: string)
    requires Offers(cs, k)
    ensures k in AddOpen(acc, cs)
    ensures exists i :: (0 <= i < |cs| && AddOpen(acc, cs)[k] == cs[i] && cs[i].id == k && !IsClosedIM(cs[i]) &&
      forall j :: i < j < |cs| ==> cs[j].id != k || IsClosedIM(cs[j]))
    decreases |cs|
  {
    var init := cs[..|cs| - 1];
    var c := cs[|cs| - 1];
    if c.id == k && !IsClosedIM(c) {
      assert AddOpen(acc, cs)[k] == cs[|cs| - 1];
    } else {
      var i0 :| 0 <= i0 < |cs| && cs[i0].id == k && !IsClosedIM(cs[i0]);
      assert init[i0] == cs[i0];
      AddOpenLatest(acc, init, k);
      var i :| (0 <= i < |init| && AddOpen(acc, init)[k] == init[i] && init[i].id == k && !IsClosedIM(init[i]) &&
        forall j :: i < j < |init| ==> init[j].id != k || IsClosedIM(init[j]));
      assert cs[i] == init[i];
      forall j | i < j < |cs| ensures cs[j].id != k || IsClosedIM(cs[j]) {
        if j < |cs| - 1 {
          assert cs[j] == init[j];
        }
      }
    }
  }

  /** The fetch so far: the requests made, and the candidate map, or `None` when a
      request failed and the whole sync was abandoned. */
  datatype FetchOutcome = FetchOutcome(requests: seq<PageRequest>, channels: Option<map<string, Channel>>)

  /** The request made with a remaining budget and a cursor. */
  function FirstRequest(budget: int, cursor: string): PageRequest
    requires budget > 0
  {
    PageRequest(RequestLimit(budget), cursor)
  }

  /** A page after which the fetch stops: no next cursor, no channels, or the budget used up. */
  predicate EndsFetch(page: Page, budget: int) {
    page.nextCursor == "" || |page.channels| == 0 || budget - |page.channels| <= 0
  }

  /** How the fetch `o` treats the answer to its first request: a failure abandons it, a
      page that ends the fetch is stored and the fetch stops, any other page is stored and
      the next request uses the reduced budget and the page's cursor. */
  predicate AnswerHandled(list: ConversationList, budget: int, cursor: string,
                          requests: seq<PageRequest>, acc: map<string, Channel>, o: FetchOutcome)
    requires budget > 0
  {
    var req := FirstRequest(budget, cursor);
    match list(req)
    case Err(_) => o == FetchOutcome(requests + [req], None)
    case Ok(page) =>
      if EndsFetch(page, budget) then o == FetchOutcome(requests + [req], Some(AddOpen(acc, page.channels)))
      else |o.requests| > |requests| + 1 &&
           o.requests[|requests| + 1] == FirstRequest(budget - |page.channels|, page.nextCursor)
  }

  /** The fetch loop from a remaining budget and cursor, with what was requested and
      collected so far: stop at a budget of zero or less, abandon on an error, stop after
      an empty page or an empty next cursor, otherwise spend the page size and go on. */
  function FetchFrom(list: ConversationList, budget: int, cursor: string,
                     requests: seq<PageRequest>, acc: map<string, Channel>): (o: FetchOutcome)
    ensures |requests| <= |o.requests| && o.requests[..|requests|] == requests
    ensures forall i :: |requests| <= i < |o.requests| ==> 0 < o.requests[i].limit <= budget && o.requests[i].limit <= 200
    ensures budget <= 0 ==> o == FetchOutcome(requests, Some(acc))
    ensures budget > 0 ==> |requests| < |o.requests| && o.requests[|requests|] == PageRequest(RequestLimit(budget), cursor)
    ensures budget > 0 ==> AnswerHandled(list, budget, cursor, requests, acc, o)
    ensures KeyedById(acc) && NoClosedIM(acc) && o.channels.Some? ==>
      KeyedById(o.channels.value) && NoClosedIM(o.channels.value)
    decreases budget
  {
    if budget <= 0 then FetchOutcome(requests, Some(acc))
    else
      var req := PageRequest(RequestLimit(budget), cursor);
      match list(req)
      case Err(_) => FetchOutcome(requests + [req], None)
      case Ok(page) =>
        var next := AddOpen(acc, page.channels);
        AddOpenKeepsInvariant(acc, page.channels);
        if page.nextCursor == "" || |page.channels| == 0 then FetchOutcome(requests + [req], Some(next))
        else
          var o := FetchFrom(list, budget - |page.channels|, page.nextCursor, requests + [req], next);
          assert o.requests[..|requests|] == (requests + [req])[..|requests|];
          o
  }

  /** Some request from index `from` on was answered with a page that offers `k`. */
  predicate FetchedOffers(list: ConversationList, requests: seq<PageRequest>, from: int, k: string) {
    exists i :: 0 <= from <= i < |requests| && list(requests[i]).Ok? && Offers(list(requests[i]).value.channels, k)
  }

  /** Peeling the first request off `FetchedOffers`. */
  lemma FetchedOffersStep(list: ConversationList, requests: seq<PageRequest>, from: int, k: string)
    requires 0 <= from < |requests|
    ensures FetchedOffers(list, requests, from, k) <==>
      || (list(requests[from]).Ok? && Offers(list(requests[from]).value.channels, k))
      || FetchedOffers(list, requests, from + 1, k)
  {
    if FetchedOffers(list, requests, from, k) {
      var i :| 0 <= from <= i < |requests| && list(requests[i]).Ok? && Offers(list(requests[i]).value.channels, k);
      if i > from {
        assert FetchedOffers(list, requests, from + 1, k);
      }
    }
  }

  /** Every request from index `from` on, except the last, was answered with a page. */
  predicate AnsweredFrom(list: ConversationList, requests: seq<PageRequest>, from: int) {
    forall i :: 0 <= from <= i < |requests| - 1 ==> list(requests[i]).Ok?
  }

  /** Across the whole fetch, every request but the last was answered with a page. */
  lemma {:induction false} FetchFromAnswered(list: ConversationList, budget: int, cursor: string,
                                            requests: seq<PageRequest>, acc: map<string, Channel>)
    ensures AnsweredFrom(list, FetchFrom(list, budget, cursor, requests, acc).requests, |requests|)
    decreases budget
  {
    var o := FetchFrom(list, budget, cursor, requests, acc);
    if budget > 0 {
      var req := PageRequest(RequestLimit(budget), cursor);
      var rest := requests + [req];
      if list(req).Ok? {
        var page := list(req).value;
        if page.nextCursor != "" && |page.channels| != 0 {
          var later := FetchFrom(list, budget - |page.channels|, page.nextCursor, rest, AddOpen(acc, page.channels));
          FetchFromAnswered(list, budget - |page.channels|, page.nextCursor, rest, AddOpen(acc, page.channels));
          assert o.requests == later.requests;
          assert o.requests[..|rest|] == rest;
          forall i | |requests| <= i < |o.requests| - 1 ensures list(o.requests[i]).Ok? {
            if i == |requests| {
              assert o.requests[i] == rest[i] == req;
            } else {
              assert list(later.requests[i]).Ok?;
            }
          }
        }
      }
    }
  }

  /** The fetch was abandoned exactly when some request from index `from` on was made
      and the last one failed. */
  predicate AbandonedAtLast(list: ConversationList, o: FetchOutcome, from: int) {
    o.channels.None? <==> 0 <= from < |o.requests| && list(o.requests[|o.requests| - 1]).Err?
  }

  /** The fetch is abandoned exactly when its last request failed. */
  lemma {:induction false} FetchFromAbandons(list: ConversationList, budget: int, cursor: string,
                                            requests: seq<PageRequest>, acc: map<string, Channel>)
    ensures AbandonedAtLast(list, FetchFrom(list, budget, cursor, requests, acc), |requests|)
    decreases budget
  {
    var o := FetchFrom(list, budget, cursor, requests, acc);
    if budget > 0 {
      var req := PageRequest(RequestLimit(budget), cursor);
      var rest := requests + [req];
      if list(req).Ok? {
        var page := list(req).value;
        if page.nextCursor != "" && |page.channels| != 0 {
          var later := FetchFrom(list, budget - |page.channels|, page.nextCursor, rest, AddOpen(acc, page.channels));
          FetchFromAbandons(list, budget - |page.channels|, page.nextCursor, rest, AddOpen(acc, page.channels));
          assert o == later;
          assert AbandonedAtLast(list, later, |rest|);
          if |later.requests| == |rest| {
            assert later.requests[..|rest|] == rest;
            assert later.requests[|later.requests| - 1] == req;
          }
        }
      }
    }
  }

  /** A completed fetch holds exactly the old candidates plus the kept channels of every
      fetched page: `AddOpenKeys` lifted from one page to the whole fetch. */
  lemma {:induction false} FetchFromKeys(list: ConversationList, budget: int, cursor: string,
                                        requests: seq<PageRequest>, acc: map<string, Channel>)
    ensures var o := FetchFrom(list, budget, cursor, requests, acc);
      o.channels.Some? ==>
        forall k :: k in o.channels.value <==> k in acc || FetchedOffers(list, o.requests, |requests|, k)
    decreases budget
  {
    var o := FetchFrom(list, budget, cursor, requests, acc);
    if budget > 0 && o.channels.Some? {
      var req := PageRequest(RequestLimit(budget), cursor);
      var page := list(req).value;
      var next := AddOpen(acc, page.channels);
      AddOpenKeys(acc, page.channels);
      var rest := requests + [req];
      assert o.requests[..|rest|] == rest;
      assert o.requests[|requests|] == req;
      if page.nextCursor != "" && |page.channels| != 0 {
        FetchFromKeys(list, budget - |page.channels|, page.nextCursor, rest, next);
      }
      forall k ensures k in o.channels.value <==> k in acc || FetchedOffers(list, o.requests, |requests|, k) {
        FetchedOffersStep(list, o.requests, |requests|, k);
      }
    }
  }

  /** The channels of every page answered from request `from` on, in request order. */
  function FetchedChannels(list: ConversationList, requests: seq<PageRequest>, from: nat): seq<Channel>
    decreases |requests| - from
  {
    if from >= |requests| then []
    else (if list(requests[from]).Ok? then list(requests[from]).value.channels else [])
         + FetchedChannels(list, requests, from + 1)
  }

  /** A completed fetch holds exactly what storing every fetched page, in order, into
      `acc` gives: keys AND values, a later page's channel replacing an earlier one. */
  lemma {:induction false} FetchFromChannels(list: ConversationList, budget: int, cursor: string,
                                            requests: seq<PageRequest>, acc: map<string, Channel>)
    ensures FetchFrom(list, budget, cursor, requests, acc).channels.Some? ==>
      FetchFrom(list, budget, cursor, requests, acc).channels.value ==
        AddOpen(acc, FetchedChannels(list, FetchFrom(list, budget, cursor, requests, acc).requests, |requests|))
    decreases budget
  {
    var o := FetchFrom(list, budget, cursor, requests, acc);
    if budget > 0 && o.channels.Some? {
      var req := PageRequest(RequestLimit(budget), cursor);
      var page := list(req).value;
      var next := AddOpen(acc, page.channels);
      var rest := requests + [req];
      assert o.requests[..|rest|] == rest;
      assert o.requests[|requests|] == req;
      assert FetchedChannels(list, o.requests, |requests|) == page.channels + FetchedChannels(list, o.requests, |rest|);
      if page.nextCursor != "" && |page.channels| != 0 {
        FetchFromChannels(list, budget - |page.channels|, page.nextCursor, rest, next);
        AddOpenConcat(acc, page.channels, FetchedChannels(list, o.requests, |rest|));
      } else {
        assert page.channels + FetchedChannels(list, o.requests, |rest|) == page.channels;
      }
    }
  }

  /** The whole fetch: none at all for an "xoxs" token, else from the configured
      conversation count, the first cursor and an empty map. */
  function ServerChannels(token: string, conversationCount: int, list: ConversationList): (o: FetchOutcome)
    ensures HasPrefix(token, "xoxs") ==> o == FetchOutcome([], Some(map[]))
    ensures !HasPrefix(token, "xoxs") && conversationCount > 0 ==>
      |o.requests| > 0 && o.requests[0] == PageRequest(RequestLimit(conversationCount), "")
    ensures forall i :: 0 <= i < |o.requests| ==> 0 < o.requests[i].limit <= conversationCount && o.requests[i].limit <= 200
    ensures o.channels.Some? ==> KeyedById(o.channels.value) && NoClosedIM(o.channels.value)
    ensures AnsweredFrom(list, o.requests, 0)
    ensures AbandonedAtLast(list, o, 0)
    ensures o.channels.Some? ==> forall k :: k in o.channels.value <==> FetchedOffers(list, o.requests, 0, k)
    ensures o.channels.Some? ==> o.channels.value == AddOpen(map[], FetchedChannels(list, o.requests, 0))
    ensures o.channels.Some? ==> forall k :: k in o.channels.value ==>
      o.channels.value[k] in FetchedChannels(list, o.requests, 0) && o.channels.value[k].id == k
  {
    if HasPrefix(token, "xoxs") then FetchOutcome([], Some(map[]))
    else
      FetchFromAnswered(list, conversationCount, "", [], map[]);
      FetchFromAbandons(list, conversationCount, "", [], map[]);
      FetchFromKeys(list, conversationCount, "", [], map[]);
      FetchFromChannels(list, conversationCount, "", [], map[]);
      AddOpenValues(map[], FetchedChannels(list, FetchFrom(list, conversationCount, "", [], map[]).requests, 0));
      FetchFrom(list, conversationCount, "", [], map[])
  }

  /** The fetch loop of `SyncChannels`. `ok` is false when a request failed, in which
      case the sync is abandoned. */
  method FetchServerChannels(token: string, conversationCount: int, list: ConversationList)
    returns (serverInfo: map<string, Channel>, requests: seq<PageRequest>, ok: bool)
    ensures ServerChannels(token, conversationCount, list) == FetchOutcome(requests, if ok then Some(serverInfo) else None)
  {
    serverInfo, requests, ok := map[], [], true;
    if HasPrefix(token, "xoxs") {
      return;
    }
    var totalLimit := conversationCount;
    var cursor := "";
    while totalLimit > 0
      invariant FetchFrom(list, conversationCount, "", [], map[]) == FetchFrom(list, totalLimit, cursor, requests, serverInfo)
      decreases totalLimit
    {
      var req := PageRequest(RequestLimit(totalLimit), cursor);
      var answer := list(req);
      requests := requests + [req];
      if answer.Err? {
        return serverInfo, requests, false;
      }
      var chunk := answer.value.channels;
      serverInfo := StorePage(serverInfo, chunk);
      if answer.value.nextCursor == "" || |chunk| == 0 {
        break;
      }
      totalLimit := totalLimit - |chunk|;
      cursor := answer.value.nextCursor;
    }
  }

  /** The inner loop of the fetch: every channel of the page that is not a closed direct
      message is stored under its ID. */
  method StorePage(serverInfo: map<string, Channel>, chunk: seq<Channel>) returns (m: map<string, Channel>)
    ensures m == AddOpen(serverInfo, chunk)
  {
    m := serverInfo;
    for j := 0 to |chunk|
      invariant m == AddOpen(serverInfo, chunk[..j])
    {
      assert chunk[..j + 1][..j] == chunk[..j];
      if !IsClosedIM(chunk[j]) {
        m := m[chunk[j].id := chunk[j]];
      }
    }
    assert chunk[..|chunk|] == chunk;
  }

  // ---------------------------------------------------------------------------
  // Reconciling with the portals that already exist

  /** The portal directory: the existing portal for a user-portal key, its chat info,
      the portal for a channel (created on demand), and the channel's portal key. */
  datatype PortalDirectory = PortalDirectory(
    getExisting: PortalKey -> Result<Portal, ApiError>,
    getChatInfo: Portal -> Result<ChatInfo, ApiError>,
    getPortal: PortalKey -> Result<Portal, ApiError>,
    makePortalKey: Channel -> PortalKey)

  /** The effects on portals: an info refresh of an existing room, or a room creation. */
  datatype PortalOp = UpdatePortalInfo(key: PortalKey, info: ChatInfo) | CreatePortalRoom(key: PortalKey, roomInfo: Option<ChatInfo>)

  /** A user portal names a channel whose portal already has a Matrix room. */
  predicate HasRoom(codec: Codec, dir: PortalDirectory, key: PortalKey) {
    && ChannelOf(codec, key.id) != ""
    && dir.getExisting(key).Ok?
    && dir.getExisting(key).value.mxid != ""
  }

  /** Some user portal with a room claims channel `k`. */
  predicate Claimed(codec: Codec, dir: PortalDirectory, portals: seq<PortalKey>, k: string) {
    exists i :: 0 <= i < |portals| && HasRoom(codec, dir, portals[i]) && ChannelOf(codec, portals[i].id) == k
  }

  /** The candidates left after the user portals: each one with a room removes its channel. */
  function Unclaimed(codec: Codec, dir: PortalDirectory, portals: seq<PortalKey>, m: map<string, Channel>)
    : map<string, Channel>
    decreases |portals|
  {
    if portals == [] then m
    else
      var before := Unclaimed(codec, dir, portals[..|portals| - 1], m);
      var key := portals[|portals| - 1];
      if HasRoom(codec, dir, key) then before - {ChannelOf(codec, key.id)} else before
  }

  /** Exactly the candidates no room claims remain, with their entries untouched. */
  lemma {:induction false} UnclaimedKeys(codec: Codec, dir: PortalDirectory, portals: seq<PortalKey>, m: map<string, Channel>)
    ensures forall k :: k in Unclaimed(codec, dir, portals, m) <==> k in m && !Claimed(codec, dir, portals, k)
    ensures forall k :: k in Unclaimed(codec, dir, portals, m) ==> Unclaimed(codec, dir, portals, m)[k] == m[k]
    decreases |portals|
  {
    if portals != [] {
      var init := portals[..|portals| - 1];
      var last := portals[|portals| - 1];
      UnclaimedKeys(codec, dir, init, m);
      forall k ensures Claimed(codec, dir, portals, k) <==>
        Claimed(codec, dir, init, k) || (HasRoom(codec, dir, last) && ChannelOf(codec, last.id) == k)
      {
        if Claimed(codec, dir, portals, k) {
          var i :| 0 <= i < |portals| && HasRoom(codec, dir, portals[i]) && ChannelOf(codec, portals[i].id) == k;
          if i < |portals| - 1 {
            assert init[i] == portals[i];
          }
        }
        if Claimed(codec, dir, init, k) {
          var i :| 0 <= i < |init| && HasRoom(codec, dir, init[i]) && ChannelOf(codec, init[i].id) == k;
          assert portals[i] == init[i];
        }
      }
    }
  }

  /** A user portal with a room whose chat info could be fetched. */
  predicate Refreshable(codec: Codec, dir: PortalDirectory, key: PortalKey) {
    HasRoom(codec, dir, key) && dir.getChatInfo(dir.getExisting(key).value).Ok?
  }

  /** The info refresh of such a portal. */
  function RefreshOp(codec: Codec, dir: PortalDirectory, key: PortalKey): PortalOp
    requires Refreshable(codec, dir, key)
  {
    var portal := dir.getExisting(key).value;
    UpdatePortalInfo(portal.key, dir.getChatInfo(portal).value)
  }

  /** The refresh a user portal causes: one when it is refreshable, none otherwise. */
  function RefreshOf(codec: Codec, dir: PortalDirectory, key: PortalKey): seq<PortalOp> {
    if Refreshable(codec, dir, key) then [RefreshOp(codec, dir, key)] else []
  }

  /** The refreshes of all user portals, in order. */
  function Refreshes(codec: Codec, dir: PortalDirectory, portals: seq<PortalKey>): seq<PortalOp>
    decreases |portals|
  {
    if portals == [] then []
    else Refreshes(codec, dir, portals[..|portals| - 1]) + RefreshOf(codec, dir, portals[|portals| - 1])
  }

  /** The refreshes of two runs of portals are those of each, one after the other. */
  lemma {:induction false} RefreshesSplit(codec: Codec, dir: PortalDirectory, p: seq<PortalKey>, q: seq<PortalKey>)
    ensures Refreshes(codec, dir, p + q) == Refreshes(codec, dir, p) + Refreshes(codec, dir, q)
    decreases |q|
  {
    if q == [] {
      assert p + q == p;
    } else {
      var init := q[..|q| - 1];
      assert (p + q)[..|p + q| - 1] == p + init;
      assert (p + q)[|p + q| - 1] == q[|q| - 1];
      RefreshesSplit(codec, dir, p, init);
    }
  }

  /** Only portals that already have a room are refreshed, at most once each; and each
      portal contributes its own refresh, in its place, whatever the portals around it
      do: every portal with a room whose chat info loads is refreshed. */
  lemma {:induction false} RefreshesOnlyRooms(codec: Codec, dir: PortalDirectory, portals: seq<PortalKey>)
    ensures |Refreshes(codec, dir, portals)| <= |portals|
    ensures forall i :: 0 <= i < |portals| ==>
      Refreshes(codec, dir, portals) ==
        Refreshes(codec, dir, portals[..i]) + RefreshOf(codec, dir, portals[i]) + Refreshes(codec, dir, portals[i + 1..])
    ensures forall i :: 0 <= i < |portals| && Refreshable(codec, dir, portals[i]) ==>
      RefreshOp(codec, dir, portals[i]) in Refreshes(codec, dir, portals)
    ensures forall op :: op in Refreshes(codec, dir, portals) ==>
      exists i :: 0 <= i < |portals| && Refreshable(codec, dir, portals[i]) && op == RefreshOp(codec, dir, portals[i])
    decreases |portals|
  {
    if portals != [] {
      var init := portals[..|portals| - 1];
      RefreshesOnlyRooms(codec, dir, init);
      forall op | op in Refreshes(codec, dir, portals)
        ensures exists i :: 0 <= i < |portals| && Refreshable(codec, dir, portals[i]) && op == RefreshOp(codec, dir, portals[i])
      {
        if op in Refreshes(codec, dir, init) {
          var i :| 0 <= i < |init| && Refreshable(codec, dir, init[i]) && op == RefreshOp(codec, dir, init[i]);
          assert portals[i] == init[i];
        } else {
          assert op in RefreshOf(codec, dir, portals[|portals| - 1]);
        }
      }
    }
    forall i | 0 <= i < |portals|
      ensures Refreshes(codec, dir, portals) ==
        Refreshes(codec, dir, portals[..i]) + RefreshOf(codec, dir, portals[i]) + Refreshes(codec, dir, portals[i + 1..])
      ensures Refreshable(codec, dir, portals[i]) ==> RefreshOp(codec, dir, portals[i]) in Refreshes(codec, dir, portals)
    {
      RefreshesAt(codec, dir, portals, i);
    }
  }

  /** The refreshes around one portal. */
  lemma RefreshesAt(codec: Codec, dir: PortalDirectory, portals: seq<PortalKey>, i: int)
    requires 0 <= i < |portals|
    ensures Refreshes(codec, dir, portals) ==
      Refreshes(codec, dir, portals[..i]) + RefreshOf(codec, dir, portals[i]) + Refreshes(codec, dir, portals[i + 1..])
  {
    assert portals == portals[..i] + [portals[i]] + portals[i + 1..];
    RefreshesSplit(codec, dir, portals[..i] + [portals[i]], portals[i + 1..]);
    RefreshesSplit(codec, dir, portals[..i], [portals[i]]);
    assert [portals[i]][..0] == [];
  }

  /** The reconciliation loop over the user's portals. */
  method ReconcileExisting(codec: Codec, dir: PortalDirectory, portals: seq<PortalKey>, serverInfo: map<string, Channel>)
    returns (remaining: map<string, Channel>, ops: seq<PortalOp>)
    ensures remaining == Unclaimed(codec, dir, portals, serverInfo)
    ensures ops == Refreshes(codec, dir, portals)
  {
    remaining, ops := serverInfo, [];
    for n := 0 to |portals|
      invariant remaining == Unclaimed(codec, dir, portals[..n], serverInfo)
      invariant ops == Refreshes(codec, dir, portals[..n])
    {
      assert portals[..n + 1][..n] == portals[..n];
      var key := portals[n];
      var channelID := ChannelOf(codec, key.id);
      if channelID == "" {
        continue;
      }
      var existing := dir.getExisting(key);
      if existing.Err? {
        continue;
      }
      if existing.value.mxid != "" {
        var info := dir.getChatInfo(existing.value);
        if info.Ok? {
          ops := ops + [UpdatePortalInfo(existing.value.key, info.value)];
        }
        remaining := remaining - {channelID};
      }
    }
    assert portals[..|portals|] == portals;
  }

  // ---------------------------------------------------------------------------
  // Ordering the remaining channels

  /** `s` lists the entries of `m` (keyed by ID), each once. */
  predicate Enumerates(s: seq<Channel>, m: map<string, Channel>) {
    && |s| == |m|
    && (forall i :: 0 <= i < |s| ==> s[i].id in m && m[s[i].id] == s[i])
    && (forall k :: k in m ==> m[k] in s)
  }

  /** Copy the remaining candidates into a fresh array, in whatever order the map yields them. */
  method CollectRemaining(m: map<string, Channel>) returns (a: array<Channel>)
    requires KeyedById(m)
    ensures fresh(a) && Enumerates(a[..], m)
  {
    a := new Channel[|m|](_ => Channel("", false, None, ""));
    var rest := m;
    var i := 0;
    while rest != map[]
      invariant 0 <= i && i + |rest| == |m| == a.Length
      invariant rest.Keys <= m.Keys && forall k :: k in rest ==> rest[k] == m[k]
      invariant forall j :: 0 <= j < i ==> a[j].id in m && a[j].id !in rest && m[a[j].id] == a[j]
      invariant forall k :: k in m && k !in rest ==> m[k] in a[..i]
      decreases |rest|
    {
      assert rest.Keys != {};
      var k :| k in rest;
      a[i] := rest[k];
      assert (rest - {k}).Keys == rest.Keys - {k};
      rest := rest - {k};
      assert a[..i + 1] == a[..i] + [a[i]];
      i := i + 1;
    }
    assert a[..i] == a[..];
  }

  /** Ascending `cmp.Compare` order of the last-read timestamps. */
  predicate SortedByLastRead(s: seq<Channel>) {
    forall i, j :: 0 <= i < j < |s| ==> Compare(s[i].lastRead, s[j].lastRead) <= 0
  }

  /** A reordering of an enumeration of `m` is still an enumeration of `m`. */
  lemma EnumeratesReordered(s: seq<Channel>, t: seq<Channel>, m: map<string, Channel>)
    requires Enumerates(s, m) && multiset(s) == multiset(t)
    ensures Enumerates(t, m)
  {
    assert |t| == |multiset(t)| == |multiset(s)| == |s|;
    forall i | 0 <= i < |t| ensures t[i] in s {
      assert t[i] in multiset(t);
    }
    forall k | k in m ensures m[k] in t {
      assert m[k] in multiset(s);
    }
  }

  /** The first `i` entries are in order and none of them comes after any later entry. */
  predicate SortedUpTo(s: seq<Channel>, i: int) {
    && (forall p, q :: 0 <= p < q < i && q < |s| ==> Compare(s[p].lastRead, s[q].lastRead) <= 0)
    && (forall p, q :: 0 <= p < i <= q < |s| ==> Compare(s[p].lastRead, s[q].lastRead) <= 0)
  }

  /** Swapping the least remaining entry into place `i` extends the sorted prefix. */
  lemma SelectionStep(s: seq<Channel>, i: int, m: int)
    requires 0 <= i <= m < |s|
    requires SortedUpTo(s, i)
    requires forall q :: i <= q < |s| ==> Compare(s[m].lastRead, s[q].lastRead) <= 0
    ensures SortedUpTo(s[i := s[m]][m := s[i]], i + 1)
    ensures multiset(s[i := s[m]][m := s[i]]) == multiset(s)
  {
    var t := s[i := s[m]][m := s[i]];
    forall p, q | 0 <= p < i + 1 <= q < |t| ensures Compare(t[p].lastRead, t[q].lastRead) <= 0 {
      var q' := if q == m then i else q;
      assert t[q] == s[q'];
    }
  }

  /** Sort in place by last-read timestamp (selection sort; ties in any order, as
      `slices.SortFunc` gives no stability). */
  method SortByLastRead(a: array<Channel>)
    modifies a
    ensures SortedByLastRead(a[..])
    ensures multiset(a[..]) == multiset(old(a[..]))
  {
    var i := 0;
    while i < a.Length
      invariant 0 <= i <= a.Length
      invariant SortedUpTo(a[..], i)
      invariant multiset(a[..]) == multiset(old(a[..]))
    {
      var m := SmallestFrom(a, i);
      ghost var s := a[..];
      assert forall q :: i <= q < |s| ==> Compare(s[m].lastRead, s[q].lastRead) <= 0;
      SelectionStep(s, i, m);
      a[i], a[m] := a[m], a[i];
      assert a[..] == s[i := s[m]][m := s[i]];
      i := i + 1;
    }
    SortedUpToAll(a[..]);
  }

  lemma SortedUpToAll(s: seq<Channel>)
    requires SortedUpTo(s, |s|)
    ensures SortedByLastRead(s)
  {
  }

  /** The index of a channel with the least last-read timestamp in `a[from..]`. */
  method SmallestFrom(a: array<Channel>, from: int) returns (m: int)
    requires 0 <= from < a.Length
    ensures from <= m < a.Length
    ensures forall q :: from <= q < a.Length ==> Compare(a[m].lastRead, a[q].lastRead) <= 0
  {
    m := from;
    var j := from + 1;
    while j < a.Length
      invariant from <= m < j <= a.Length
      invariant forall q :: from <= q < j ==> Compare(a[m].lastRead, a[q].lastRead) <= 0
    {
      if Compare(a[j].lastRead, a[m].lastRead) < 0 {
        forall q | from <= q < j ensures Compare(a[j].lastRead, a[q].lastRead) <= 0 {
          CompareTransitive(a[j].lastRead, a[m].lastRead, a[q].lastRead);
        }
        m := j;
      } else {
        CompareAntisymmetric(a[j].lastRead, a[m].lastRead);
      }
      j := j + 1;
    }
  }

  // ---------------------------------------------------------------------------
  // Creating the rooms

  /** The room creation of one remaining channel, when its portal can be had; the
      creation's own failure is only logged. */
  function CreationOf(dir: PortalDirectory, c: Channel): seq<PortalOp> {
    match dir.getPortal(dir.makePortalKey(c))
    case Err(_) => []
    case Ok(portal) => [CreatePortalRoom(portal.key, None)]
  }

  /** The room creations of the channels, in their order. */
  function Creations(dir: PortalDirectory, cs: seq<Channel>): seq<PortalOp>
    decreases |cs|
  {
    if cs == [] then [] else Creations(dir, cs[..|cs| - 1]) + CreationOf(dir, cs[|cs| - 1])
  }

  /** The room creations of two runs of channels are those of each, one after the other. */
  lemma {:induction false} CreationsSplit(dir: PortalDirectory, p: seq<Channel>, q: seq<Channel>)
    ensures Creations(dir, p + q) == Creations(dir, p) + Creations(dir, q)
    decreases |q|
  {
    if q == [] {
      assert p + q == p;
    } else {
      var init := q[..|q| - 1];
      assert (p + q)[..|p + q| - 1] == p + init;
      assert (p + q)[|p + q| - 1] == q[|q| - 1];
      CreationsSplit(dir, p, init);
    }
  }

  /** One creation per channel whose portal lookup succeeds, none for the others, and
      one failure never stops the channels after it: each channel contributes its own
      creation, in its place, whatever the channels around it do. */
  lemma CreationsOnePerChannel(dir: PortalDirectory, cs: seq<Channel>)
    ensures |Creations(dir, cs)| <= |cs|
    ensures forall i :: 0 <= i < |cs| ==>
      Creations(dir, cs) == Creations(dir, cs[..i]) + CreationOf(dir, cs[i]) + Creations(dir, cs[i + 1..])
    ensures forall i :: 0 <= i < |cs| && dir.getPortal(dir.makePortalKey(cs[i])).Ok? ==>
      CreatePortalRoom(dir.getPortal(dir.makePortalKey(cs[i])).value.key, None) in Creations(dir, cs)
    ensures (forall i :: 0 <= i < |cs| ==> dir.getPortal(dir.makePortalKey(cs[i])).Ok?) ==>
      |Creations(dir, cs)| == |cs| &&
      forall i :: 0 <= i < |cs| ==>
        Creations(dir, cs)[i] == CreatePortalRoom(dir.getPortal(dir.makePortalKey(cs[i])).value.key, None)
  {
    CreationsAllFound(dir, cs);
    forall i | 0 <= i < |cs|
      ensures Creations(dir, cs) == Creations(dir, cs[..i]) + CreationOf(dir, cs[i]) + Creations(dir, cs[i + 1..])
      ensures dir.getPortal(dir.makePortalKey(cs[i])).Ok? ==>
        CreatePortalRoom(dir.getPortal(dir.makePortalKey(cs[i])).value.key, None) in Creations(dir, cs)
    {
      CreationsAt(dir, cs, i);
    }
  }

  /** At most one creation per channel, and exactly one per channel, in order, when every
      lookup succeeds. */
  lemma {:induction false} CreationsAllFound(dir: PortalDirectory, cs: seq<Channel>)
    ensures |Creations(dir, cs)| <= |cs|
    ensures (forall i :: 0 <= i < |cs| ==> dir.getPortal(dir.makePortalKey(cs[i])).Ok?) ==>
      |Creations(dir, cs)| == |cs| &&
      forall i :: 0 <= i < |cs| ==>
        Creations(dir, cs)[i] == CreatePortalRoom(dir.getPortal(dir.makePortalKey(cs[i])).value.key, None)
    decreases |cs|
  {
    if cs != [] {
      var init := cs[..|cs| - 1];
      CreationsAllFound(dir, init);
      if forall i :: 0 <= i < |cs| ==> dir.getPortal(dir.makePortalKey(cs[i])).Ok? {
        forall i | 0 <= i < |init| ensures dir.getPortal(dir.makePortalKey(init[i])).Ok? {
          assert init[i] == cs[i];
        }
      }
    }
  }

  /** The room creations around one channel. */
  lemma CreationsAt(dir: PortalDirectory, cs: seq<Channel>, i: int)
    requires 0 <= i < |cs|
    ensures Creations(dir, cs) == Creations(dir, cs[..i]) + CreationOf(dir, cs[i]) + Creations(dir, cs[i + 1..])
    ensures dir.getPortal(dir.makePortalKey(cs[i])).Ok? ==>
      CreatePortalRoom(dir.getPortal(dir.makePortalKey(cs[i])).value.key, None) in Creations(dir, cs)
  {
    assert cs == cs[..i] + [cs[i]] + cs[i + 1..];
    CreationsSplit(dir, cs[..i] + [cs[i]], cs[i + 1..]);
    CreationsSplit(dir, cs[..i], [cs[i]]);
    assert [cs[i]][..0] == [];
  }

  /** The creation loop over the sorted array. */
  method CreateRooms(dir: PortalDirectory, a: array<Channel>) returns (ops: seq<PortalOp>)
    ensures ops == Creations(dir, a[..])
  {
    ops := [];
    for n := 0 to a.Length
      invariant ops == Creations(dir, a[..n])
    {
      assert a[..n + 1][..n] == a[..n];
      var portal := dir.getPortal(dir.makePortalKey(a[n]));
      if portal.Err? {
        continue;
      }
      ops := ops + [CreatePortalRoom(portal.value.key, None)];
    }
    assert a[..a.Length] == a[..];
  }
}
