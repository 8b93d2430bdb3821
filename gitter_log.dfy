/**
 * The fetch pipeline (`GitterLog`, `UrlFetcher`, `fetch_logs`): list the
 * rooms, fetch each selected room's messages, and print the recent ones to
 * the room's buffer. The remote API is a fixed set of responses plus a log
 * of the requests made; rooms are handled one after the other.
 */
module GitterLog {
  import opened Wrappers
  import opened Chats
  import opened Weechat
  import opened Rooms
  import opened Messages

  /** An HTTPS GET as `UrlFetcher#http_get` builds it. */
  datatype Request = Request(url: string, accept: string, authorization: string)

  /** The Gitter API: its answers (None for a non-success status) and the requests it received. */
  class Api {
    /** The answer to the rooms list. */
    const rooms: Option<seq<RoomRecord>>
    /** The answer to each messages endpoint, by URL. */
    const messages: string -> Option<seq<MessageRecord>>
    var requests: seq<Request>

    constructor (rooms: Option<seq<RoomRecord>>, messages: string -> Option<seq<MessageRecord>>)
      ensures this.rooms == rooms && this.messages == messages && requests == []
    {
      this.rooms := rooms;
      this.messages := messages;
      requests := [];
    }
  }

  /** The request for `url`, authenticated with the bearer `token`. */
  function HttpGet(url: string, token: string): (r: Request)
    ensures r.url == url
    ensures r.accept == "application/json"
    ensures |r.authorization| == |token| + 7
    ensures r.authorization[..7] == "Bearer " && r.authorization[7..] == token
  {
    Request(url, "application/json", "Bearer " + token)
  }

  /** `UrlFetcher`: the token every request carries. */
  datatype UrlFetcher = UrlFetcher(token: string) {

    /** `fetch_url(Room.rooms_url)`: the records, or None on a non-success status. */
    method FetchRooms(api: Api) returns (r: Option<seq<RoomRecord>>)
      modifies api`requests
      ensures r == api.rooms
      ensures api.requests == old(api.requests) + [HttpGet(RoomsUrl, token)]
    {
      api.requests := api.requests + [HttpGet(RoomsUrl, token)];
      r := api.rooms;
    }

    /** `fetch_url(room.messages_url)`. */
    method FetchMessages(api: Api, url: string) returns (r: Option<seq<MessageRecord>>)
      modifies api`requests
      ensures r == api.messages(url)
      ensures api.requests == old(api.requests) + [HttpGet(url, token)]
    {
      api.requests := api.requests + [HttpGet(url, token)];
      r := api.messages(url);
    }
  }

  /** Everything a run leaves behind: requests made, lookups, commands and printed lines. */
  datatype Effects = Effects(requests: seq<Request>, queries: seq<string>, commands: seq<Sent>, printed: seq<Sent>)
  {
    /** These effects followed by `next`. */
    function Then(next: Effects): Effects
    {
      Effects(requests + next.requests, queries + next.queries,
              commands + next.commands, printed + next.printed)
    }
  }

  const NoEffects: Effects := Effects([], [], [], [])

  lemma ThenAssoc(a: Effects, b: Effects, c: Effects)
    ensures a.Then(b).Then(c) == a.Then(b.Then(c))
  {
    assert a.requests + b.requests + c.requests == a.requests + (b.requests + c.requests);
    assert a.queries + b.queries + c.queries == a.queries + (b.queries + c.queries);
    assert a.commands + b.commands + c.commands == a.commands + (b.commands + c.commands);
    assert a.printed + b.printed + c.printed == a.printed + (b.printed + c.printed);
  }

  /** The requests the API received and everything the host logged, as one value. */
  ghost function Log(api: Api, host: Host): Effects
    reads api, host
  {
    Effects(api.requests, host.queries, host.commands, host.printed)
  }

  /** The lines of `ms`, in order, all to `buffer`. */
  function Lines(buffer: Handle, ms: seq<Message>): (r: seq<Sent>)
    ensures |r| == |ms|
    ensures forall i :: 0 <= i < |ms| ==> r[i] == Sent(buffer, Line(ms[i]))
  {
    seq(|ms|, i requires 0 <= i < |ms| => Sent(buffer, Line(ms[i])))
  }

  /** The lines of one more message are the earlier lines and that message's. */
  lemma LinesSnoc(buffer: Handle, ms: seq<Message>, i: nat)
    requires i < |ms|
    ensures Lines(buffer, ms[..i + 1]) == Lines(buffer, ms[..i]) + [Sent(buffer, Line(ms[i]))]
  {
    assert ms[..i + 1][i] == ms[i];
  }

  /** What `print` did: the room's cache afterwards and the host effects. */
  datatype PrintOutcome = PrintOutcome(cache: Option<Handle>, effects: Effects)

  /**
   * `GitterLog#print`: nothing when no message is recent (the buffer is
   * then not even resolved); otherwise resolve the buffer once and, if there
   * is one, print every recent message's line to it.
   */
  function PrintSpec(cache: Option<Handle>, irc: IrcBuffer, lookup: string -> Handle,
                     ms: seq<Message>, now: int): (p: PrintOutcome)
    ensures p.effects.requests == []
    ensures Recent(ms, now) == [] ==> p.cache == cache && p.effects == NoEffects
    ensures cache.Some? ==> p.cache == cache && p.effects.queries == [] && p.effects.commands == []
    ensures p.effects.commands != [] ==> p.cache.None? && p.effects.printed == []
    ensures p.effects.printed != [] ==> p.cache.Some? && p.effects.commands == []
  {
    var shown := Recent(ms, now);
    if shown == [] then PrintOutcome(cache, NoEffects)
    else
      var r := Memoised(cache, irc, lookup);
      var lines := if r.handle.None? then [] else Lines(r.handle.value, shown);
      PrintOutcome(r.handle, Effects([], r.queries, r.commands, lines))
  }

  /**
   * What is printed is exactly the recent messages' lines, in their order,
   * all to the buffer the room resolved to; nothing when it resolved to nil.
   */
  lemma PrintShowsRecentInOrder(cache: Option<Handle>, irc: IrcBuffer, lookup: string -> Handle,
                                ms: seq<Message>, now: int)
    ensures var p := PrintSpec(cache, irc, lookup, ms, now);
      p.effects.printed == (if p.cache.Some? then Lines(p.cache.value, Recent(ms, now)) else [])
    ensures var p := PrintSpec(cache, irc, lookup, ms, now);
      forall k :: 0 <= k < |p.effects.printed| ==>
        p.effects.printed[k].buffer == p.cache.value && Show(Recent(ms, now)[k], now)
  {
    var p := PrintSpec(cache, irc, lookup, ms, now);
    forall k | 0 <= k < |p.effects.printed|
      ensures p.effects.printed[k].buffer == p.cache.value && Show(Recent(ms, now)[k], now)
    {
      RecentMembers(ms, now, Recent(ms, now)[k]);
    }
  }

  /** With no recent message the buffer is never resolved: no lookup, no join, no line. */
  lemma PrintNothingRecent(cache: Option<Handle>, irc: IrcBuffer, lookup: string -> Handle,
                           ms: seq<Message>, now: int)
    requires forall i :: 0 <= i < |ms| ==> !Show(ms[i], now)
    ensures PrintSpec(cache, irc, lookup, ms, now) == PrintOutcome(cache, NoEffects)
  {
    RecentAllOrNone(ms, now);
  }

  /**
   * A room without a buffer yet: a recent message makes the room send its
   * join command to the server buffer, and nothing is printed this time.
   */
  lemma PrintWithoutBuffer(irc: IrcBuffer, lookup: string -> Handle, ms: seq<Message>, now: int, i: nat)
    requires i < |ms| && Show(ms[i], now)
    requires lookup(irc.server) == lookup(irc.ChannelKey())
    ensures var p := PrintSpec(None, irc, lookup, ms, now);
      && p.cache.None?
      && p.effects.commands == [Sent(lookup(irc.server), JoinCommand(irc.chat))]
      && p.effects.printed == []
  {
    RecentMembers(ms, now, ms[i]);
  }

  /**
   * A room seen for the first time whose chat has a buffer: a recent message
   * makes the room look its buffer up, cache it, and print every recent line
   * to it, in order, without any command.
   */
  lemma PrintResolvesBuffer(irc: IrcBuffer, lookup: string -> Handle, ms: seq<Message>, now: int, i: nat)
    requires i < |ms| && Show(ms[i], now)
    requires lookup(irc.server) != lookup(irc.ChannelKey())
    ensures var p := PrintSpec(None, irc, lookup, ms, now);
      && p.cache == Some(lookup(irc.ChannelKey()))
      && p.effects == Effects([], [irc.server, irc.ChannelKey()], [], Lines(lookup(irc.ChannelKey()), Recent(ms, now)))
      && |p.effects.printed| > 0
  {
    RecentMembers(ms, now, ms[i]);
  }

  /** A room whose buffer is cached prints to it without any lookup or command. */
  lemma PrintCached(h: Handle, irc: IrcBuffer, lookup: string -> Handle, ms: seq<Message>, now: int)
    ensures var p := PrintSpec(Some(h), irc, lookup, ms, now);
      && p.cache == Some(h)
      && p.effects == Effects([], [], [], Lines(h, Recent(ms, now)))
  {
  }

  /** `GitterLog#print` against the host. */
  method Print(room: Room, ms: seq<Message>, now: int, host: Host)
    modifies room`cache, host`queries, host`commands, host`printed
    ensures var p := PrintSpec(old(room.cache), room.ircBuffer, host.lookup, ms, now);
      && room.cache == p.cache
      && host.queries == old(host.queries) + p.effects.queries
      && host.commands == old(host.commands) + p.effects.commands
      && host.printed == old(host.printed) + p.effects.printed
  {
    var shown := Recent(ms, now);
    if shown == [] {
      return;
    }
    var buffer := room.Buffer(host);
    if buffer.None? {
      return;
    }
    PrintEach(room, shown, host);
  }

  /** The loop of `print`: each line to `room.buffer`, which the cache answers every time. */
  method PrintEach(room: Room, shown: seq<Message>, host: Host)
    requires room.cache.Some?
    modifies room`cache, host`queries, host`commands, host`printed
    ensures room.cache == old(room.cache)
    ensures host.queries == old(host.queries) && host.commands == old(host.commands)
    ensures host.printed == old(host.printed) + Lines(room.cache.value, shown)
  {
    var i := 0;
    while i < |shown|
      invariant 0 <= i <= |shown|
      invariant room.cache == old(room.cache)
      invariant host.queries == old(host.queries) && host.commands == old(host.commands)
      invariant host.printed == old(host.printed) + Lines(room.cache.value, shown[..i])
    {
      var b := room.Buffer(host);
      host.Print(b.value, Line(shown[i]));
      LinesSnoc(b.value, shown, i);
      i := i + 1;
    }
    assert shown[..i] == shown;
  }

  /**
   * `fetch_logs_for_room`: a room the filter selects asks for its messages;
   * when they arrive and parse, they are printed.
   */
  function RoomRun(filter: Option<string>, id: string, irc: IrcBuffer, cache: Option<Handle>,
                   lookup: string -> Handle, token: string,
                   answers: string -> Option<seq<MessageRecord>>, now: int): (r: PrintOutcome)
    ensures !ShouldFetch(filter, irc.chat) ==> r.cache == cache && r.effects == NoEffects
    ensures ShouldFetch(filter, irc.chat) ==> r.effects.requests == [HttpGet(MessagesUrl(id), token)]
    ensures ShouldFetch(filter, irc.chat)
              && (answers(MessagesUrl(id)).None? || Parse(answers(MessagesUrl(id)).value).Failure?) ==>
      r.cache == cache && r.effects == Effects([HttpGet(MessagesUrl(id), token)], [], [], [])
    ensures r.effects.printed != [] ==>
      && answers(MessagesUrl(id)).Some?
      && Parse(answers(MessagesUrl(id)).value).Success?
      && r.cache.Some?
      && r.effects.printed == Lines(r.cache.value, Recent(Parse(answers(MessagesUrl(id)).value).value, now))
  {
    if !ShouldFetch(filter, irc.chat) then PrintOutcome(cache, NoEffects)
    else
      var request := Effects([HttpGet(MessagesUrl(id), token)], [], [], []);
      match answers(MessagesUrl(id))
      case None => PrintOutcome(cache, request)
      case Some(recs) =>
        match Parse(recs)
        case Failure(_) => PrintOutcome(cache, request)
        case Success(ms) =>
          var p := PrintSpec(cache, irc, lookup, ms, now);
          PrintOutcome(p.cache, request.Then(p.effects))
  }

  /** `fetch_logs_for_room` against the API and the host. */
  method FetchLogsForRoom(fetcher: UrlFetcher, room: Room, filter: Option<string>,
                          api: Api, host: Host, now: int)
    modifies room`cache, api`requests, host`queries, host`commands, host`printed
    ensures var p := RoomRun(filter, room.id, room.ircBuffer, old(room.cache), host.lookup,
                             fetcher.token, api.messages, now);
      && room.cache == p.cache
      && Log(api, host) == old(Log(api, host)).Then(p.effects)
  {
    if !ShouldFetch(filter, room.chat) {
      assert Log(api, host) == old(Log(api, host)).Then(NoEffects);
      return;
    }
    var answer := fetcher.FetchMessages(api, MessagesUrl(room.id));
    ghost var request := Effects([HttpGet(MessagesUrl(room.id), fetcher.token)], [], [], []);
    assert Log(api, host) == old(Log(api, host)).Then(request);
    if answer.None? {
      return;
    }
    var ms := Parse(answer.value);
    if ms.Failure? {
      return;
    }
    Print(room, ms.value, now, host);
    ghost var p := PrintSpec(old(room.cache), room.ircBuffer, host.lookup, ms.value, now);
    ThenAssoc(old(Log(api, host)), request, p.effects);
    assert Log(api, host) == old(Log(api, host)).Then(request.Then(p.effects));
  }

  /** One record of the rooms list: parsed into a new room, then handled; a bad record does nothing. */
  function RecordRun(rec: RoomRecord, server: string, filter: Option<string>, lookup: string -> Handle,
                     token: string, answers: string -> Option<seq<MessageRecord>>, now: int): (r: Effects)
    ensures ParseChat(rec).Failure? ==> r == NoEffects
    ensures r.requests == [] || r.requests == [HttpGet(MessagesUrl(rec.id), token)]
  {
    match ParseChat(rec)
    case Failure(_) => NoEffects
    case Success(chat) => RoomRun(filter, rec.id, IrcBuffer(server, chat), None, lookup, token, answers, now).effects
  }

  /** `fetch_rooms`, one room after the other. */
  function RoomsRun(recs: seq<RoomRecord>, server: string, filter: Option<string>, lookup: string -> Handle,
                    token: string, answers: string -> Option<seq<MessageRecord>>, now: int): (r: Effects)
    ensures |r.requests| <= |recs|
    ensures forall k :: 0 <= k < |r.requests| ==> r.requests[k].authorization == "Bearer " + token
  {
    if recs == [] then NoEffects
    else
      RoomsRun(recs[..|recs| - 1], server, filter, lookup, token, answers, now)
        .Then(RecordRun(recs[|recs| - 1], server, filter, lookup, token, answers, now))
  }

  /** The rooms run of a longer prefix is the shorter one's followed by the next record's. */
  lemma RoomsRunStep(recs: seq<RoomRecord>, i: nat, server: string, filter: Option<string>,
                     lookup: string -> Handle, token: string,
                     answers: string -> Option<seq<MessageRecord>>, now: int)
    requires i < |recs|
    ensures RoomsRun(recs[..i + 1], server, filter, lookup, token, answers, now)
      == RoomsRun(recs[..i], server, filter, lookup, token, answers, now)
           .Then(RecordRun(recs[i], server, filter, lookup, token, answers, now))
  {
    assert recs[..i + 1][..i] == recs[..i];
  }

  /** The body of `fetch_rooms`' thread for one record. */
  method FetchRecord(fetcher: UrlFetcher, rec: RoomRecord, server: string, filter: Option<string>,
                     api: Api, host: Host, now: int)
    modifies api`requests, host`queries, host`commands, host`printed
    ensures Log(api, host)
      == old(Log(api, host)).Then(RecordRun(rec, server, filter, host.lookup, fetcher.token, api.messages, now))
  {
    var room := Room.Parse(server, rec);
    if room.Success? {
      FetchLogsForRoom(fetcher, room.value, filter, api, host, now);
    }
  }

  /** `fetch_rooms` against the API and the host. */
  method FetchRooms(fetcher: UrlFetcher, recs: seq<RoomRecord>, server: string, filter: Option<string>,
                    api: Api, host: Host, now: int)
    modifies api`requests, host`queries, host`commands, host`printed
    ensures Log(api, host)
      == old(Log(api, host)).Then(RoomsRun(recs, server, filter, host.lookup, fetcher.token, api.messages, now))
  {
    var i := 0;
    ghost var done := NoEffects;
    while i < |recs|
      invariant 0 <= i <= |recs|
      invariant done == RoomsRun(recs[..i], server, filter, host.lookup, fetcher.token, api.messages, now)
      invariant Log(api, host) == old(Log(api, host)).Then(done)
    {
      FetchRecord(fetcher, recs[i], server, filter, api, host, now);
      ghost var step := RecordRun(recs[i], server, filter, host.lookup, fetcher.token, api.messages, now);
      RoomsRunStep(recs, i, server, filter, host.lookup, fetcher.token, api.messages, now);
      ThenAssoc(old(Log(api, host)), done, step);
      done := done.Then(step);
      i := i + 1;
    }
    assert recs[..i] == recs;
  }

  /** What `fetch_logs` returns to WeeChat. */
  datatype ReturnCode = RcOk | RcError

  const MissingConfigMessage: string :=
    "Missing server or token properties. Check gitterlog configurations."

  /** A token of this form names an entry of WeeChat's secured data. */
  const SecuredPrefix: string := "${sec.data."

  /** The token sent to the API: a secured-data reference is evaluated by the host first. */
  function EffectiveToken(token: string, evaluate: string -> string): (r: string)
    ensures (|token| < |SecuredPrefix| || token[..|SecuredPrefix|] != SecuredPrefix) ==> r == token
    ensures |SecuredPrefix| <= |token| && token[..|SecuredPrefix|] == SecuredPrefix ==> r == evaluate(token)
  {
    if |SecuredPrefix| <= |token| && token[..|SecuredPrefix|] == SecuredPrefix then evaluate(token) else token
  }

  /** What `fetch_logs` did. */
  datatype FetchOutcome = FetchOutcome(rc: ReturnCode, effects: Effects)

  /**
   * `fetch_logs`: with the server or the token missing, report it to the core
   * buffer and stop; otherwise fetch the rooms and handle each of them.
   */
  function FetchLogsSpec(filter: Option<string>, server: string, token: string, evaluate: string -> string,
                         lookup: string -> Handle, rooms: Option<seq<RoomRecord>>,
                         answers: string -> Option<seq<MessageRecord>>, now: int): (o: FetchOutcome)
    ensures o.rc == RcError <==> server == [] || token == []
    ensures o.rc == RcOk ==>
      && 0 < |o.effects.requests| <= 1 + (if rooms.Some? then |rooms.value| else 0)
      && o.effects.requests[0] == HttpGet(RoomsUrl, EffectiveToken(token, evaluate))
    ensures o.rc == RcOk && rooms.None? ==>
      o.effects == Effects([HttpGet(RoomsUrl, EffectiveToken(token, evaluate))], [], [], [])
  {
    if server == [] || token == [] then
      FetchOutcome(RcError, Effects([], [], [], [Sent("", MissingConfigMessage)]))
    else
      var tok := EffectiveToken(token, evaluate);
      var list := Effects([HttpGet(RoomsUrl, tok)], [], [], []);
      match rooms
      case None => FetchOutcome(RcOk, list)
      case Some(recs) => FetchOutcome(RcOk, list.Then(RoomsRun(recs, server, filter, lookup, tok, answers, now)))
  }

  /** `fetch_logs` against the API and the host. */
  method FetchLogs(filter: Option<string>, server: string, token: string, evaluate: string -> string,
                   api: Api, host: Host, now: int) returns (rc: ReturnCode)
    modifies api`requests, host`queries, host`commands, host`printed
    ensures var o := FetchLogsSpec(filter, server, token, evaluate, host.lookup, api.rooms, api.messages, now);
      && rc == o.rc
      && Log(api, host) == old(Log(api, host)).Then(o.effects)
  {
    if server == [] || token == [] {
      host.Print("", MissingConfigMessage);
      assert Log(api, host) == old(Log(api, host)).Then(Effects([], [], [], [Sent("", MissingConfigMessage)]));
      return RcError;
    }
    var fetcher := UrlFetcher(EffectiveToken(token, evaluate));
    var rooms := fetcher.FetchRooms(api);
    ghost var list := Effects([HttpGet(RoomsUrl, fetcher.token)], [], [], []);
    assert Log(api, host) == old(Log(api, host)).Then(list);
    if rooms.Some? {
      ghost var run := RoomsRun(rooms.value, server, filter, host.lookup, fetcher.token, api.messages, now);
      FetchRooms(fetcher, rooms.value, server, filter, api, host, now);
      ThenAssoc(old(Log(api, host)), list, run);
      assert Log(api, host) == old(Log(api, host)).Then(list.Then(run));
    }
    rc := RcOk;
  }
}

/**
 * What a whole `fetch_logs` run does: the configuration guard, which
 * endpoints are requested and with which credentials, where joins go, and
 * single-room examples.
 */
module GitterLogProperties {
  import opened Wrappers
  import opened Chats
  import opened Weechat
  import opened Rooms
  import opened Messages
  import opened GitterLog

  /** With the server or the token empty, the run only reports the missing configuration. */
  lemma ConfigGuard(filter: Option<string>, server: string, token: string, evaluate: string -> string,
                    lookup: string -> Handle, rooms: Option<seq<RoomRecord>>,
                    answers: string -> Option<seq<MessageRecord>>, now: int)
    ensures var o := FetchLogsSpec(filter, server, token, evaluate, lookup, rooms, answers, now);
      (o.rc == RcError <==> server == [] || token == [])
    ensures var o := FetchLogsSpec(filter, server, token, evaluate, lookup, rooms, answers, now);
      o.rc == RcError ==>
        && o.effects.requests == [] && o.effects.queries == [] && o.effects.commands == []
        && o.effects.printed == [Sent("", MissingConfigMessage)]
  {
  }

  /** The record opens a room that the filter selects. */
  predicate Selects(rec: RoomRecord, filter: Option<string>)
  {
    ParseChat(rec).Success? && ShouldFetch(filter, ParseChat(rec).value)
  }

  /** The ids of the records that are selected, in order. */
  function SelectedIds(recs: seq<RoomRecord>, filter: Option<string>): (ids: seq<string>)
    ensures |ids| <= |recs|
  {
    if recs == [] then []
    else
      var last := recs[|recs| - 1];
      SelectedIds(recs[..|recs| - 1], filter) + (if Selects(last, filter) then [last.id] else [])
  }

  /** The message requests for `ids`, in order. */
  function MessageRequests(ids: seq<string>, token: string): (r: seq<Request>)
    ensures |r| == |ids|
    ensures forall k :: 0 <= k < |ids| ==> r[k] == HttpGet(MessagesUrl(ids[k]), token)
  {
    seq(|ids|, k requires 0 <= k < |ids| => HttpGet(MessagesUrl(ids[k]), token))
  }

  /** The requests for two id lists joined are the two lists' requests joined. */
  lemma MessageRequestsAppend(a: seq<string>, b: seq<string>, token: string)
    ensures MessageRequests(a + b, token) == MessageRequests(a, token) + MessageRequests(b, token)
  {
  }

  /** One record asks for its room's messages exactly when it is selected. */
  lemma RecordRunRequests(rec: RoomRecord, server: string, filter: Option<string>, lookup: string -> Handle,
                          token: string, answers: string -> Option<seq<MessageRecord>>, now: int)
    ensures RecordRun(rec, server, filter, lookup, token, answers, now).requests
      == (if Selects(rec, filter) then [HttpGet(MessagesUrl(rec.id), token)] else [])
  {
    if Selects(rec, filter) {
      var chat := ParseChat(rec).value;
      var url := MessagesUrl(rec.id);
      match answers(url)
      case None =>
      case Some(recs) =>
        match Parse(recs)
        case Failure(_) =>
        case Success(ms) =>
          var p := PrintSpec(None, IrcBuffer(server, chat), lookup, ms, now);
          assert p.effects.requests == [];
    }
  }

  /**
   * The rooms run asks for the messages of every selected room and of no
   * other, one request each, in the order of the rooms list.
   */
  lemma {:induction false} RoomsRunRequests(recs: seq<RoomRecord>, server: string, filter: Option<string>,
                                            lookup: string -> Handle, token: string,
                                            answers: string -> Option<seq<MessageRecord>>, now: int)
    ensures RoomsRun(recs, server, filter, lookup, token, answers, now).requests
      == MessageRequests(SelectedIds(recs, filter), token)
    decreases |recs|
  {
    if recs != [] {
      var init, last := recs[..|recs| - 1], recs[|recs| - 1];
      RoomsRunRequests(init, server, filter, lookup, token, answers, now);
      RecordRunRequests(last, server, filter, lookup, token, answers, now);
      var before := SelectedIds(init, filter);
      var added := if Selects(last, filter) then [last.id] else [];
      assert SelectedIds(recs, filter) == before + added;
      assert RoomsRun(recs, server, filter, lookup, token, answers, now).requests
        == RoomsRun(init, server, filter, lookup, token, answers, now).requests
           + RecordRun(last, server, filter, lookup, token, answers, now).requests;
      MessageRequestsAppend(before, added, token);
    }
  }

  /** A selected id belongs to a record of the list that the filter selects. */
  lemma {:induction false} SelectedIdsFromList(recs: seq<RoomRecord>, filter: Option<string>, k: nat)
    requires k < |SelectedIds(recs, filter)|
    ensures exists i :: 0 <= i < |recs| && recs[i].id == SelectedIds(recs, filter)[k] && Selects(recs[i], filter)
    decreases |recs|
  {
    var init := recs[..|recs| - 1];
    var last := recs[|recs| - 1];
    if k < |SelectedIds(init, filter)| {
      SelectedIdsFromList(init, filter, k);
      var i :| 0 <= i < |init| && init[i].id == SelectedIds(init, filter)[k] && Selects(init[i], filter);
      assert recs[i] == init[i];
    } else {
      assert recs[|recs| - 1] == last;
    }
  }

  /** Every record that the filter selects has its id selected. */
  lemma {:induction false} SelectedIdsComplete(recs: seq<RoomRecord>, filter: Option<string>, i: nat)
    requires i < |recs| && Selects(recs[i], filter)
    ensures recs[i].id in SelectedIds(recs, filter)
    decreases |recs|
  {
    var init := recs[..|recs| - 1];
    if i < |init| {
      SelectedIdsComplete(init, filter, i);
      assert init[i] == recs[i];
    }
  }

  /**
   * What `fetch_logs` requests: the rooms list, then the messages of each
   * selected room; every request carries the bearer token and asks for JSON.
   */
  lemma FetchLogsRequests(filter: Option<string>, server: string, token: string, evaluate: string -> string,
                          lookup: string -> Handle, rooms: Option<seq<RoomRecord>>,
                          answers: string -> Option<seq<MessageRecord>>, now: int)
    requires server != [] && token != []
    ensures var o := FetchLogsSpec(filter, server, token, evaluate, lookup, rooms, answers, now);
      var tok := EffectiveToken(token, evaluate);
      && o.rc == RcOk
      && o.effects.requests == [HttpGet(RoomsUrl, tok)]
           + (if rooms.Some? then MessageRequests(SelectedIds(rooms.value, filter), tok) else [])
      && forall k :: 0 <= k < |o.effects.requests| ==>
           o.effects.requests[k].accept == "application/json"
           && o.effects.requests[k].authorization == "Bearer " + tok
  {
    var tok := EffectiveToken(token, evaluate);
    if rooms.Some? {
      RoomsRunRequests(rooms.value, server, filter, lookup, tok, answers, now);
    }
  }

  /**
   * With a filter, only rooms whose name is exactly the filter have their
   * messages requested: a public room only for `#uri`.
   */
  lemma FilterRequestsOnlyNamedRoom(f: string, recs: seq<RoomRecord>, k: nat)
    requires k < |SelectedIds(recs, Some(f))|
    ensures exists i :: && 0 <= i < |recs| && recs[i].id == SelectedIds(recs, Some(f))[k]
                        && ParseChat(recs[i]).Success? && Name(ParseChat(recs[i]).value) == f
  {
    SelectedIdsFromList(recs, Some(f), k);
  }

  /** Every text in `sent` went to `buffer`. */
  predicate AllTo(sent: seq<Sent>, buffer: Handle)
  {
    forall k :: 0 <= k < |sent| ==> sent[k].buffer == buffer
  }

  /** One record's join commands, if any, go to the server buffer. */
  lemma RecordRunJoinsServer(rec: RoomRecord, server: string, filter: Option<string>, lookup: string -> Handle,
                             token: string, answers: string -> Option<seq<MessageRecord>>, now: int)
    ensures AllTo(RecordRun(rec, server, filter, lookup, token, answers, now).commands, lookup(server))
  {
  }

  /** Every command of a run is a join sent to the server buffer. */
  lemma {:induction false} RoomsRunJoinsServer(recs: seq<RoomRecord>, server: string, filter: Option<string>,
                                               lookup: string -> Handle, token: string,
                                               answers: string -> Option<seq<MessageRecord>>, now: int)
    ensures AllTo(RoomsRun(recs, server, filter, lookup, token, answers, now).commands, lookup(server))
    decreases |recs|
  {
    if recs != [] {
      var before := RoomsRun(recs[..|recs| - 1], server, filter, lookup, token, answers, now);
      var added := RecordRun(recs[|recs| - 1], server, filter, lookup, token, answers, now);
      RoomsRunJoinsServer(recs[..|recs| - 1], server, filter, lookup, token, answers, now);
      RecordRunJoinsServer(recs[|recs| - 1], server, filter, lookup, token, answers, now);
      assert RoomsRun(recs, server, filter, lookup, token, answers, now).commands
        == before.commands + added.commands;
    }
  }

  /** A run over a one-room list does what that room's record does, after listing the rooms. */
  lemma FetchLogsOneRoom(filter: Option<string>, server: string, token: string, evaluate: string -> string,
                         lookup: string -> Handle, rec: RoomRecord,
                         answers: string -> Option<seq<MessageRecord>>, now: int)
    requires server != [] && token != []
    ensures var o := FetchLogsSpec(filter, server, token, evaluate, lookup, Some([rec]), answers, now);
      var e := RecordRun(rec, server, filter, lookup, EffectiveToken(token, evaluate), answers, now);
      o.effects.queries == e.queries && o.effects.commands == e.commands && o.effects.printed == e.printed
  {
    var tok := EffectiveToken(token, evaluate);
    var e := RecordRun(rec, server, filter, lookup, tok, answers, now);
    assert [rec][..0] == [] && [rec][0] == rec;
    var run := RoomsRun([rec], server, filter, lookup, tok, answers, now);
    assert RoomsRun([], server, filter, lookup, tok, answers, now) == NoEffects;
    assert run == NoEffects.Then(e);
    assert run.queries == e.queries && run.commands == e.commands && run.printed == e.printed;
  }

  /**
   * A public room whose channel buffer exists, with one recent message: the
   * message's line is printed to the channel buffer and nothing is joined.
   */
  lemma PublicRoomPrints(server: string, token: string, evaluate: string -> string, lookup: string -> Handle,
                         id: string, uri: string, answers: string -> Option<seq<MessageRecord>>,
                         text: string, sent: Timestamp, user: string, now: int)
    requires server != [] && token != []
    requires lookup(server) != lookup(server + ",#" + uri)
    requires answers(MessagesUrl(id)) == Some([MessageRecord(text, Some(sent), Some(user))])
    requires Show(Message(text, sent, user), now)
    ensures var o := FetchLogsSpec(None, server, token, evaluate, lookup,
                                   Some([RoomRecord(id, Some(uri), None)]), answers, now);
      && o.effects.commands == []
      && o.effects.printed == [Sent(lookup(server + ",#" + uri), Line(Message(text, sent, user)))]
  {
    var irc := IrcBuffer(server, PublicChat(uri));
    assert irc.ChannelKey() == server + ",#" + uri;
    var ms := SingleMessage(text, sent, user);
    OneRecentLine(irc, lookup, text, sent, user, now);
    OneRoomParsed(None, server, token, evaluate, lookup, RoomRecord(id, Some(uri), None), PublicChat(uri),
                  answers, now, ms);
  }

  /** A run over one selected room whose messages arrive and parse does what `print` does with them. */
  lemma OneRoomParsed(filter: Option<string>, server: string, token: string, evaluate: string -> string,
                      lookup: string -> Handle, rec: RoomRecord, chat: Chat,
                      answers: string -> Option<seq<MessageRecord>>, now: int, ms: seq<Message>)
    requires server != [] && token != []
    requires ParseChat(rec) == Success(chat) && ShouldFetch(filter, chat)
    requires answers(MessagesUrl(rec.id)).Some? && Parse(answers(MessagesUrl(rec.id)).value) == Success(ms)
    ensures var o := FetchLogsSpec(filter, server, token, evaluate, lookup, Some([rec]), answers, now);
      var p := PrintSpec(None, IrcBuffer(server, chat), lookup, ms, now);
      o.effects.commands == p.effects.commands && o.effects.printed == p.effects.printed
  {
    FetchLogsOneRoom(filter, server, token, evaluate, lookup, rec, answers, now);
    RoomRunParsed(filter, rec.id, IrcBuffer(server, chat), None, lookup, EffectiveToken(token, evaluate),
                  answers, now, ms);
  }

  /** `print` of one recent message in a fresh room whose chat has a buffer: its one line goes there. */
  lemma OneRecentLine(irc: IrcBuffer, lookup: string -> Handle, text: string, sent: Timestamp, user: string, now: int)
    requires lookup(irc.server) != lookup(irc.ChannelKey())
    requires Show(Message(text, sent, user), now)
    ensures var p := PrintSpec(None, irc, lookup, [Message(text, sent, user)], now);
      && p.effects.commands == []
      && p.effects.printed == [Sent(lookup(irc.ChannelKey()), Line(Message(text, sent, user)))]
  {
    var ms := [Message(text, sent, user)];
    assert Recent(ms, now) == ms by { assert ms[1..] == []; }
    PrintResolvesBuffer(irc, lookup, ms, now, 0);
  }

  /** A selected room whose messages arrive and parse does what `print` does with them. */
  lemma RoomRunParsed(filter: Option<string>, id: string, irc: IrcBuffer, cache: Option<Handle>,
                      lookup: string -> Handle, token: string,
                      answers: string -> Option<seq<MessageRecord>>, now: int, ms: seq<Message>)
    requires ShouldFetch(filter, irc.chat)
    requires answers(MessagesUrl(id)).Some? && Parse(answers(MessagesUrl(id)).value) == Success(ms)
    ensures var r := RoomRun(filter, id, irc, cache, lookup, token, answers, now);
      var p := PrintSpec(cache, irc, lookup, ms, now);
      && r.cache == p.cache
      && r.effects.queries == p.effects.queries
      && r.effects.commands == p.effects.commands
      && r.effects.printed == p.effects.printed
  {
  }

  /** A message list of one record with a sender and a date parses to that one message. */
  lemma SingleMessage(text: string, sent: Timestamp, user: string) returns (ms: seq<Message>)
    ensures ms == [Message(text, sent, user)]
    ensures Parse([MessageRecord(text, Some(sent), Some(user))]) == Success(ms)
  {
    ms := [Message(text, sent, user)];
    var mrecs := [MessageRecord(text, Some(sent), Some(user))];
    assert mrecs[1..] == [] && ms[1..] == [];
    assert ParseOne(mrecs[0]) == Success(ms[0]);
    assert Parse(mrecs[1..]) == Success([]);
    assert [ms[0]] + [] == ms;
  }

  /**
   * A private conversation without a query buffer, with one recent message:
   * `/Q user` goes to the server buffer and nothing is printed this time.
   */
  lemma PrivateRoomJoins(server: string, token: string, evaluate: string -> string, lookup: string -> Handle,
                         id: string, user: string, answers: string -> Option<seq<MessageRecord>>,
                         text: string, sent: Timestamp, from: string, now: int)
    requires server != [] && token != []
    requires lookup(server) == lookup(server + "," + user)
    requires answers(MessagesUrl(id)) == Some([MessageRecord(text, Some(sent), Some(from))])
    requires Show(Message(text, sent, from), now)
    ensures var o := FetchLogsSpec(None, server, token, evaluate, lookup,
                                   Some([RoomRecord(id, None, Some(user))]), answers, now);
      && o.effects.commands == [Sent(lookup(server), "/Q " + user)]
      && o.effects.printed == []
  {
    var rec := RoomRecord(id, None, Some(user));
    var tok := EffectiveToken(token, evaluate);
    FetchLogsOneRoom(None, server, token, evaluate, lookup, rec, answers, now);
    var irc := IrcBuffer(server, PrivateChat(user));
    assert irc.ChannelKey() == server + "," + user;
    var ms := SingleMessage(text, sent, from);
    assert Recent(ms, now) == ms by { assert ms[1..] == []; }
    var p := PrintSpec(None, irc, lookup, ms, now);
    assert p.effects.commands == [Sent(lookup(server), "/Q " + user)] && p.effects.printed == [];
    var r := RoomRun(None, id, irc, None, lookup, tok, answers, now);
    assert r.effects.commands == p.effects.commands && r.effects.printed == p.effects.printed;
  }

  /** A message two days old is not printed, and the room's buffer is not even resolved. */
  lemma OldMessageNotPrinted(server: string, token: string, evaluate: string -> string, lookup: string -> Handle,
                             rec: RoomRecord, answers: string -> Option<seq<MessageRecord>>,
                             text: string, sent: Timestamp, user: string, now: int)
    requires server != [] && token != []
    requires answers(MessagesUrl(rec.id)) == Some([MessageRecord(text, Some(sent), Some(user))])
    requires sent.instant == now - 2 * Day
    ensures var o := FetchLogsSpec(None, server, token, evaluate, lookup, Some([rec]), answers, now);
      o.effects.queries == [] && o.effects.commands == [] && o.effects.printed == []
  {
    var tok := EffectiveToken(token, evaluate);
    FetchLogsOneRoom(None, server, token, evaluate, lookup, rec, answers, now);
    var ms := SingleMessage(text, sent, user);
    assert Recent(ms, now) == [] by { assert ms[1..] == []; }
    if ParseChat(rec).Success? {
      var irc := IrcBuffer(server, ParseChat(rec).value);
      assert PrintSpec(None, irc, lookup, ms, now).effects == NoEffects;
    }
  }
}
