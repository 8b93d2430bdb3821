/**
 * The part of WeeChat the script talks to: `Weechat.info_get('irc_buffer', …)`,
 * `Weechat.command` and `Weechat.print`. Buffer lookup is a fixed total
 * function from a buffer name (`server` or `server,channel`) to a buffer
 * pointer; every lookup, every command sent and every line printed is
 * appended to a log, so that what the script did can be stated exactly.
 */
module Weechat {

  /** A buffer pointer, as WeeChat hands it to scripts (a string). */
  type Handle = string

  /** A text sent to a buffer: a command, or a printed line. */
  datatype Sent = Sent(buffer: Handle, text: string)

  class Host {
    /** `info_get('irc_buffer', name)`: the pointer of the buffer called `name`. */
    const lookup: string -> Handle
    /** The names looked up, in order. */
    var queries: seq<string>
    /** The commands sent, in order. */
    var commands: seq<Sent>
    /** The lines printed, in order. */
    var printed: seq<Sent>

    constructor (lookup: string -> Handle)
      ensures this.lookup == lookup
      ensures queries == [] && commands == [] && printed == []
    {
      this.lookup := lookup;
      queries, commands, printed := [], [], [];
    }

    /** `Weechat.info_get('irc_buffer', name)`. */
    method InfoGet(name: string) returns (h: Handle)
      modifies this`queries
      ensures h == lookup(name)
      ensures queries == old(queries) + [name]
    {
      h := lookup(name);
      queries := queries + [name];
    }

    /** `Weechat.command(buffer, text)`. */
    method Command(buffer: Handle, text: string)
      modifies this`commands
      ensures commands == old(commands) + [Sent(buffer, text)]
    {
      commands := commands + [Sent(buffer, text)];
    }

    /** `Weechat.print(buffer, text)`. */
    method Print(buffer: Handle, text: string)
      modifies this`printed
      ensures printed == old(printed) + [Sent(buffer, text)]
    {
      printed := printed + [Sent(buffer, text)];
    }
  }
}
