/**
 * The two kinds of Gitter chat (the `Chat`, `PrivateChat` and `PublicChat`
 * classes): a one-to-one conversation, opened in WeeChat as a query, and a
 * public room, joined as an IRC channel.
 */
module Chats {

  /** A chat and its base name: the user name or the room's uri. */
  datatype Chat = PrivateChat(base: string) | PublicChat(base: string)

  /** The channel marker put in front of a public room's name. */
  const ChannelMarker: char := '#'

  /** The name WeeChat knows the chat by: a public room gets a `#` prefix. */
  function Name(c: Chat): (r: string)
    ensures c.PrivateChat? ==> r == c.base
    ensures c.PublicChat? ==> |r| == |c.base| + 1 && r[0] == ChannelMarker && r[1..] == c.base
  {
    match c
    case PrivateChat(user) => user
    case PublicChat(uri) => [ChannelMarker] + uri
  }

  /** The command that opens the chat's buffer: a query or a channel join. */
  function JoinCommand(c: Chat): (r: string)
    ensures |r| > |Name(c)| + 1 && r[|r| - |Name(c)|..] == Name(c)
    ensures r[0] == '/' && r[1] == (if c.PrivateChat? then 'Q' else 'j')
  {
    match c
    case PrivateChat(_) => "/Q " + Name(c)
    case PublicChat(_) => "/join " + Name(c)
  }

  /** The join command is the verb of the chat's kind followed by its name. */
  lemma JoinCommandNamesChat(c: Chat)
    ensures JoinCommand(c) == (if c.PrivateChat? then "/Q " else "/join ") + Name(c)
    ensures c.PrivateChat? ==> JoinCommand(c) == "/Q " + c.base
    ensures c.PublicChat? ==> JoinCommand(c) == "/join #" + c.base
  {
  }

  /** Within one kind, the name determines the chat: no two rooms share a buffer name. */
  lemma NameInjective(c: Chat, d: Chat)
    requires c.PrivateChat? == d.PrivateChat?
    requires Name(c) == Name(d)
    ensures c == d
  {
    if c.PublicChat? {
      assert c.base == Name(c)[1..] == Name(d)[1..] == d.base;
    }
  }

  /** The join command determines the chat, kind included. */
  lemma JoinCommandInjective(c: Chat, d: Chat)
    requires JoinCommand(c) == JoinCommand(d)
    ensures c == d
  {
    var jc, jd := JoinCommand(c), JoinCommand(d);
    // A query command and a join command differ at their second character.
    assert jc[1] == (if c.PrivateChat? then 'Q' else 'j');
    assert jd[1] == (if d.PrivateChat? then 'Q' else 'j');
    if c.PrivateChat? && d.PrivateChat? {
      assert c.base == jc[3..] == jd[3..] == d.base;
    } else if c.PublicChat? && d.PublicChat? {
      assert c.base == jc[7..] == jd[7..] == d.base;
    }
  }
}
