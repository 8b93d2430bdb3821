/**
 * Gitter rooms (the `Room` and `IRCBuffer` classes): parsing a record of the
 * rooms list, the channel filter, the messages endpoint, and finding (or
 * joining) the WeeChat buffer a room is shown in.
 */
module Rooms {
  import opened Wrappers
  import opened Chats
  import opened Weechat

  /**
   * One element of the rooms list: `id`, the optional `uri`, and
   * `user.username`, which is None when the record has no `user` object.
   */
  datatype RoomRecord = RoomRecord(id: string, uri: Option<string>, username: Option<string>)

  /** A private-room record without a user: Ruby raises calling `[]` on nil. */
  datatype RecordError = MissingUser

  /** The endpoint listing the rooms of the token's owner. */
  const RoomsUrl: string := "https://api.gitter.im/v1/rooms"

  const MessagesPrefix: string := RoomsUrl + "/"
  const MessagesSuffix: string := "/chatMessages"

  /** `Room.parse`: a record without a uri is a private chat with its user. */
  function ParseChat(rec: RoomRecord): (r: Result<Chat, RecordError>)
    ensures r.Failure? <==> rec.uri.None? && rec.username.None?
    ensures r.Success? ==> (r.value.PrivateChat? <==> rec.uri.None?)
  {
    match rec.uri
    case Some(uri) => Success(PublicChat(uri))
    case None =>
      match rec.username
      case Some(user) => Success(PrivateChat(user))
      case None => Failure(MissingUser)
  }

  /** A record with no uri names a private chat after its user, unmodified. */
  lemma ParsedPrivateRoom(rec: RoomRecord)
    requires rec.uri.None? && rec.username.Some?
    ensures ParseChat(rec).Success?
    ensures Name(ParseChat(rec).value) == rec.username.value
    ensures JoinCommand(ParseChat(rec).value) == "/Q " + rec.username.value
  {
  }

  /** A record with a uri names a public chat `#uri`, joined with `/join #uri`. */
  lemma ParsedPublicRoom(rec: RoomRecord)
    requires rec.uri.Some?
    ensures ParseChat(rec).Success?
    ensures Name(ParseChat(rec).value) == "#" + rec.uri.value
    ensures JoinCommand(ParseChat(rec).value) == "/join #" + rec.uri.value
  {
    JoinCommandNamesChat(ParseChat(rec).value);
  }

  /** `should_fetch?`: no filter, or a filter equal to the chat's name. */
  predicate ShouldFetch(filter: Option<string>, chat: Chat)
    ensures filter.None? ==> ShouldFetch(filter, chat)
    ensures filter.Some? && chat.PrivateChat? ==> (ShouldFetch(filter, chat) <==> filter.value == chat.base)
    ensures filter.Some? && chat.PublicChat? ==>
      (ShouldFetch(filter, chat) <==> |filter.value| > 0 && filter.value[0] == '#' && filter.value[1..] == chat.base)
  {
    filter.None? || filter.value == Name(chat)
  }

  /**
   * A public room only passes a filter that carries the leading `#`: its bare
   * uri never selects it.
   */
  lemma PublicFilterNeedsMarker(filter: string, uri: string)
    ensures ShouldFetch(Some(filter), PublicChat(uri)) <==> filter == "#" + uri
    ensures !ShouldFetch(Some(uri), PublicChat(uri))
  {
    assert |Name(PublicChat(uri))| == |uri| + 1;
  }

  /** A filter selects at most one chat of each kind. */
  lemma FilterSelectsOne(filter: string, c: Chat, d: Chat)
    requires c.PrivateChat? == d.PrivateChat?
    requires ShouldFetch(Some(filter), c) && ShouldFetch(Some(filter), d)
    ensures c == d
  {
    NameInjective(c, d);
  }

  /** `messages_url`: the room's id in the chatMessages endpoint. */
  function MessagesUrl(id: string): (url: string)
    ensures |url| == |MessagesPrefix| + |id| + |MessagesSuffix|
    ensures url[..|MessagesPrefix|] == MessagesPrefix
    ensures url[|MessagesPrefix|..|MessagesPrefix| + |id|] == id
    ensures url[|MessagesPrefix| + |id|..] == MessagesSuffix
  {
    MessagesPrefix + id + MessagesSuffix
  }

  /** The room id in a chatMessages endpoint, if `url` is one. */
  function RoomIdOf(url: string): Option<string>
  {
    var lo, hi := |MessagesPrefix|, |url| - |MessagesSuffix|;
    if lo <= hi && url[..lo] == MessagesPrefix && url[hi..] == MessagesSuffix
    then Some(url[lo..hi])
    else None
  }

  /** The room id can be read back from the endpoint: distinct rooms, distinct URLs. */
  lemma MessagesUrlRoundTrip(id: string)
    ensures RoomIdOf(MessagesUrl(id)) == Some(id)
  {
    var url := MessagesUrl(id);
    assert url[|url| - |MessagesSuffix|..] == MessagesSuffix;
  }

  /** Every URL the id reader accepts is the endpoint of the id it reads. */
  lemma RoomIdOfSound(url: string)
    requires RoomIdOf(url).Some?
    ensures MessagesUrl(RoomIdOf(url).value) == url
  {
    var lo, hi := |MessagesPrefix|, |url| - |MessagesSuffix|;
    assert url == url[..lo] + url[lo..hi] + url[hi..];
  }

  /** The messages endpoint is never the rooms endpoint. */
  lemma MessagesUrlNotRoomsUrl(id: string)
    ensures MessagesUrl(id) != RoomsUrl
  {
    assert |MessagesUrl(id)| > |RoomsUrl|;
  }

  /** What one buffer resolution did: its result, the lookups and the commands. */
  datatype Resolution = Resolution(handle: Option<Handle>, queries: seq<string>, commands: seq<Sent>)

  /** `IRCBuffer`: the server a chat lives on, and the chat. */
  datatype IrcBuffer = IrcBuffer(server: string, chat: Chat) {

    /** The buffer name of the chat's channel or query: `server,name`. */
    function ChannelKey(): (key: string)
      ensures |key| == |server| + 1 + |Name(chat)|
      ensures key[..|server|] == server && key[|server|] == ',' && key[|server| + 1..] == Name(chat)
    {
      server + "," + Name(chat)
    }

    /**
     * `find_or_join_buffer!`: when the channel lookup falls back to the
     * server buffer, there is no buffer for the chat yet, so the join
     * command goes to the server buffer and there is nothing to print to.
     */
    function Resolve(lookup: string -> Handle): (r: Resolution)
      ensures r.queries == [server, ChannelKey()]
      ensures |r.commands| <= 1
      ensures r.handle.None? <==> lookup(server) == lookup(ChannelKey())
      ensures r.handle.None? ==> r.commands == [Sent(lookup(server), JoinCommand(chat))]
      ensures r.handle.Some? ==>
        r.commands == [] && r.handle.value == lookup(ChannelKey()) && r.handle.value != lookup(server)
    {
      var serverBuffer, channelBuffer := lookup(server), lookup(ChannelKey());
      if serverBuffer != channelBuffer then
        Resolution(Some(channelBuffer), [server, ChannelKey()], [])
      else
        Resolution(None, [server, ChannelKey()], [Sent(serverBuffer, JoinCommand(chat))])
    }

    /** `find_or_join_buffer!` run against the host. */
    method FindOrJoinBuffer(host: Host) returns (h: Option<Handle>)
      modifies host`queries, host`commands
      ensures h == Resolve(host.lookup).handle
      ensures host.queries == old(host.queries) + Resolve(host.lookup).queries
      ensures host.commands == old(host.commands) + Resolve(host.lookup).commands
    {
      var serverBuffer := host.InfoGet(server);
      var channelBuffer := host.InfoGet(ChannelKey());
      if serverBuffer != channelBuffer {
        return Some(channelBuffer);
      }
      host.Command(serverBuffer, JoinCommand(chat));
      h := None;
    }
  }

  /**
   * `@buffer ||= find_or_join_buffer!`: a cached handle is returned as it is;
   * without one (never resolved, or resolved to nil) the buffer is resolved
   * again. The new cache is always the returned handle.
   */
  function Memoised(cache: Option<Handle>, irc: IrcBuffer, lookup: string -> Handle): (r: Resolution)
    ensures cache.Some? ==> r.handle == cache && r.queries == [] && r.commands == []
    ensures cache.None? ==> r.queries == [irc.server, irc.ChannelKey()]
    ensures r.handle.None? <==> cache.None? && lookup(irc.server) == lookup(irc.ChannelKey())
    ensures cache.None? && r.handle.Some? ==> r.handle.value == lookup(irc.ChannelKey())
    ensures r.commands != [] <==> r.handle.None?
    ensures r.handle.None? ==> r.commands == [Sent(lookup(irc.server), JoinCommand(irc.chat))]
  {
    if cache.Some? then Resolution(cache, [], []) else irc.Resolve(lookup)
  }

  /** Once a handle is cached, every later call returns it and does nothing else. */
  lemma {:induction false} MemoisedSticks(cache: Option<Handle>, irc: IrcBuffer, lookup: string -> Handle, n: nat)
    requires Memoised(cache, irc, lookup).handle.Some?
    ensures Repeat(Memoised(cache, irc, lookup).handle, irc, lookup, n)
      == Resolution(Memoised(cache, irc, lookup).handle, [], [])
  {
    if n > 0 {
      MemoisedSticks(cache, irc, lookup, n - 1);
    }
  }

  /** The combined effect of `n` further calls starting from `cache`. */
  function Repeat(cache: Option<Handle>, irc: IrcBuffer, lookup: string -> Handle, n: nat): Resolution
    decreases n
  {
    if n == 0 then Resolution(cache, [], [])
    else
      var first := Memoised(cache, irc, lookup);
      var rest := Repeat(first.handle, irc, lookup, n - 1);
      Resolution(rest.handle, first.queries + rest.queries, first.commands + rest.commands)
  }

  /**
   * nil is not cached: while the chat has no buffer, every call resolves
   * again and sends the join command again, `n` calls sending `n` joins.
   */
  lemma {:induction false} NilIsNotCached(irc: IrcBuffer, lookup: string -> Handle, n: nat)
    requires lookup(irc.server) == lookup(irc.ChannelKey())
    ensures Repeat(None, irc, lookup, n).handle.None?
    ensures |Repeat(None, irc, lookup, n).commands| == n
    ensures forall i :: 0 <= i < n ==>
      Repeat(None, irc, lookup, n).commands[i] == Sent(lookup(irc.server), JoinCommand(irc.chat))
  {
    if n > 0 {
      NilIsNotCached(irc, lookup, n - 1);
    }
  }

  /** `Room`: a parsed room and its memoised buffer. */
  class Room {
    const server: string
    const id: string
    const chat: Chat
    const ircBuffer: IrcBuffer := IrcBuffer(server, chat)
    /** `@buffer`: None until a resolution returns a handle. */
    var cache: Option<Handle>

    constructor (server: string, id: string, chat: Chat)
      ensures this.server == server && this.id == id && this.chat == chat
      ensures cache.None?
    {
      this.server := server;
      this.id := id;
      this.chat := chat;
      cache := None;
    }

    /** `Room.parse`; a private record without a user is an error. */
    static method Parse(server: string, rec: RoomRecord) returns (r: Result<Room, RecordError>)
      ensures r.Failure? <==> ParseChat(rec).Failure?
      ensures r.Success? ==>
        && fresh(r.value)
        && r.value.id == rec.id
        && r.value.server == server
        && Success(r.value.chat) == ParseChat(rec)
        && r.value.cache.None?
    {
      var chat := ParseChat(rec);
      if chat.Failure? {
        return Failure(chat.error);
      }
      var room := new Room(server, rec.id, chat.value);
      r := Success(room);
    }

    /** `buffer`: the memoised resolution. */
    method Buffer(host: Host) returns (b: Option<Handle>)
      modifies this`cache, host`queries, host`commands
      ensures b == Memoised(old(cache), ircBuffer, host.lookup).handle
      ensures cache == b
      ensures host.queries == old(host.queries) + Memoised(old(cache), ircBuffer, host.lookup).queries
      ensures host.commands == old(host.commands) + Memoised(old(cache), ircBuffer, host.lookup).commands
    {
      if cache.None? {
        cache := ircBuffer.FindOrJoinBuffer(host);
      }
      b := cache;
    }
  }
}
