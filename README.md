# gitterlog, modelled in Dafny

gitterlog is a WeeChat script (`gitter_log.rb`). It loads the recent history of
a user's Gitter rooms into the WeeChat buffers that show those rooms through
Gitter's IRC bridge. Each run does the following:

- reads the configured server and bearer token, and stops with an error if either is empty;
- lists the rooms over the Gitter REST API;
- for each room that the channel filter selects, fetches its messages;
- keeps the messages sent within the last day;
- finds the room's WeeChat buffer, or joins the channel or opens the query when there is none yet;
- prints one line per kept message, in order, when the room's buffer already exists (a join sent in this run prints nothing).

The project models that decision layer. It works against an abstract WeeChat
host and an abstract Gitter API. Each of them keeps append-only logs: the
buffer lookups, the commands sent, the lines printed and the HTTP requests
made. So what a run did can be stated exactly.

Modules (one file each):

- `Wrappers` (`wrappers.dfy`): the `Option` and `Result` datatypes.
- `Strings` (`strings.dfy`): `IndexOf`.
- `Chats` (`chats.dfy`): the two chat kinds as one datatype, their buffer names and their join commands.
- `Weechat` (`weechat.dfy`): the host, a class with a fixed lookup function (`info_get('irc_buffer', …)`) and three logs.
- `Rooms` (`rooms.dfy`): room records, `Room.parse`, the channel filter, the messages endpoint, `IRCBuffer#find_or_join_buffer!`, and the `Room` class with its memoised buffer.
- `Messages` (`messages.dfy`): message records, `Message.parse`, the one-day recency test, the `text` line, and readers that parse the line back.
- `GitterLog` (`gitter_log.dfy`): `print`, `fetch_logs_for_room`, `fetch_rooms` and `fetch_logs`. Each is a method proved against a specification function.
- `GitterLogProperties` (`gitter_log.dfy`): properties of whole runs, and single-room examples.
- `Signals` (`signals.dfy`): the `on_join` signal handler.

Two details of `gitter_log.rb` that the model keeps:

- **A nil buffer is not cached.** `Room#buffer` is `@buffer ||= …`, which stores only a non-nil handle. A room whose chat has no buffer therefore resolves again, and sends its join command again, on every later call. `Rooms.NilIsNotCached` states this.
- **One day is 86400 seconds.** The recency test compares the send time with `DateTime.now - 1`, which is one day earlier. The model counts instants in whole seconds.

## Model

| member | source | states |
|---|---|---|
| Chats.Name | gitter_log.rb:208-225 | a private chat's name is its user name unmodified; a public chat's name is `#` followed by its uri |
| Chats.JoinCommand | gitter_log.rb:216-229 | the command starts with `/Q` for a private chat and `/j` for a public one, and ends with the chat's name |
| Chats.JoinCommandNamesChat | gitter_log.rb:216-229 | the join command is `/Q name` for a private chat and `/join #uri` for a public one |
| Chats.NameInjective | gitter_log.rb:208-225 | two chats of the same kind with the same name are the same chat |
| Chats.JoinCommandInjective | gitter_log.rb:216-229 | the join command determines the chat, kind included |
| Rooms.ParseChat | gitter_log.rb:127-133 | a record fails to parse exactly when it has neither a uri nor a user; otherwise the chat is private exactly when the uri is missing |
| Rooms.ParsedPrivateRoom | gitter_log.rb:128-129 | a record without a uri gives a private chat named by `user.username`, joined with `/Q username` |
| Rooms.ParsedPublicRoom | gitter_log.rb:130-131 | a record with a uri gives a public chat named `#uri`, joined with `/join #uri` |
| Rooms.ShouldFetch | gitter_log.rb:145-147 | no filter selects every chat; a filter selects a private chat exactly when it is the user name, and a public chat exactly when it is `#` followed by the uri |
| Rooms.PublicFilterNeedsMarker | gitter_log.rb:145-147 | a public room passes a filter exactly when the filter is `#` + uri, so the bare uri never selects it |
| Rooms.FilterSelectsOne | gitter_log.rb:145-147 | a filter selects at most one chat of each kind |
| Rooms.MessagesUrl | gitter_log.rb:149-151 | the messages endpoint is the rooms endpoint, `/`, the room id, then `/chatMessages` |
| Rooms.MessagesUrlRoundTrip | gitter_log.rb:149-151 | the room id can be read back from its messages endpoint |
| Rooms.RoomIdOfSound | gitter_log.rb:149-151 | every URL that the id reader accepts is the endpoint of the id it reads |
| Rooms.MessagesUrlNotRoomsUrl | gitter_log.rb:135-151 | no messages endpoint is the rooms-list endpoint |
| Rooms.IrcBuffer.ChannelKey | gitter_log.rb:176 | the channel's buffer name is the server, a comma, then the chat's name |
| Rooms.IrcBuffer.Resolve | gitter_log.rb:165-181 | looks up `server`, then `server,name`. The result is nil exactly when the two lookups agree, and then the one command sent is the chat's join command, to the server buffer. Otherwise the result is the channel buffer, never the server buffer, and no command is sent |
| Rooms.IrcBuffer.FindOrJoinBuffer | gitter_log.rb:165-181 | against the host, returns what `Resolve` says and appends exactly its lookups and commands to the host's logs |
| Rooms.Memoised | gitter_log.rb:153-155 | a cached handle is returned with no lookup and no command; without one, both buffers are looked up, the result is nil exactly when they agree, and a command (the join, to the server buffer) is sent exactly when the result is nil |
| Rooms.MemoisedSticks | gitter_log.rb:153-155 | once `buffer` returns a handle, any number of later calls return that handle with no lookup and no command |
| Rooms.NilIsNotCached | gitter_log.rb:153-155 | while the chat has no buffer, n calls to `buffer` return nil and send the join command n times, all to the server buffer |
| Rooms.Room.constructor | gitter_log.rb:139-143 | a new room keeps its server, id and chat, and starts with no cached buffer |
| Rooms.Room.Parse | gitter_log.rb:127-133 | returns a fresh room with the record's id, the parsed chat and an empty cache, or the parse error |
| Rooms.Room.Buffer | gitter_log.rb:153-155 | returns the cached handle without touching the host; with no handle cached, resolves and caches the result |
| Weechat.Host.InfoGet | gitter_log.rb:179-181 | returns the lookup of the name and logs the lookup |
| Weechat.Host.Command | gitter_log.rb:169 | appends the command to the command log |
| Weechat.Host.Print | gitter_log.rb:91 | appends the line to the print log |
| Messages.ParseOne | gitter_log.rb:185-197 | a record becomes a message exactly when it has a sender and a date. A missing sender is reported first, because it is read before the date is parsed |
| Messages.Parse | gitter_log.rb:185-191 | succeeds exactly when every record parses, with one message per record in the same order; a failure is the first failing record's error |
| Messages.Show | gitter_log.rb:199-201 | a message is shown exactly when it is at most one day (86400 s) old at `now` |
| Messages.ShowBoundary | gitter_log.rb:199-201 | a message exactly one day old is shown; one a second older is not |
| Messages.ShowAntitone | gitter_log.rb:199-201 | a message shown now was shown at every earlier moment |
| Messages.Recent | gitter_log.rb:87 | the selection is no longer than the input, and holds only input messages that are shown |
| Messages.RecentMembers | gitter_log.rb:87 | the selection holds exactly the input messages that are shown |
| Messages.RecentAppend | gitter_log.rb:87 | selecting from a joined list is joining the selections, so the order is kept |
| Messages.RecentAllOrNone | gitter_log.rb:87-88 | all messages shown keeps the list whole; the selection is empty exactly when no message is shown |
| Messages.Pad2 | gitter_log.rb:204 | a number below 100 is rendered as exactly two decimal digits whose value is that number |
| Messages.Stamp | gitter_log.rb:204 | the stamp is 19 characters: `[`, two digits, `-`, two, `-`, two, a space, two, `:`, two, `:`, two, `]` |
| Messages.Line | gitter_log.rb:203-205 | the line is the sender, a tab, the 19-character stamp, a space and the message text, at those positions |
| Messages.StampRoundTrip | gitter_log.rb:204 | `[%y-%m-%d %H:%M:%S]` reads back to the year mod 100, month, day, hour, minute and second |
| Messages.LineRoundTrip | gitter_log.rb:203-205 | the shown line reads back to its sender, its time-stamp fields and its text when the sender has no tab |
| GitterLog.HttpGet | gitter_log.rb:117-122 | a request asks for JSON and carries `Bearer` followed by the token |
| GitterLog.UrlFetcher.FetchRooms | gitter_log.rb:102-107 | logs one authenticated request for the rooms list and yields the records, or nothing on a failed status |
| GitterLog.UrlFetcher.FetchMessages | gitter_log.rb:102-107 | logs one authenticated request for the URL and yields its records, or nothing on a failed status |
| GitterLog.PrintSpec | gitter_log.rb:86-93 | `print` makes no request; with no recent message it does nothing and keeps the cache; a cached handle costs no lookup and no command; a join and a printed line never happen in the same call |
| GitterLog.PrintShowsRecentInOrder | gitter_log.rb:86-93 | when the room's buffer resolves to a handle, `print` prints exactly the lines of the recent messages, in order, to that handle; when it resolves to nil, nothing; every printed message is a shown one |
| GitterLog.PrintResolvesBuffer | gitter_log.rb:86-93 | a fresh room whose chat has a buffer, with a recent message: looks up `server` and `server,name`, caches the channel buffer, sends no command and prints every recent line to it in order |
| GitterLog.PrintNothingRecent | gitter_log.rb:87-88 | with no recent message the buffer is never resolved: no lookup, no join, no line, cache unchanged |
| GitterLog.PrintWithoutBuffer | gitter_log.rb:88 | a room without a buffer and with a recent message sends its join command to the server buffer and prints nothing |
| GitterLog.PrintCached | gitter_log.rb:88-92 | a room with a cached buffer prints the recent lines to it without any lookup or command |
| GitterLog.Print | gitter_log.rb:86-93 | against the room and the host, leaves the cache and appends the lookups, commands and lines that `PrintSpec` gives |
| GitterLog.PrintEach | gitter_log.rb:90-92 | with a cached buffer, prints every line, in order, to that buffer; `room.buffer` is asked for each line and the cache answers it |
| GitterLog.RoomRun | gitter_log.rb:78-84 | a rejected room does nothing; a selected room makes exactly one request, for its messages; when the answer fails or a record does not parse, that request is all it does (no lookup, no command, cache kept); lines are printed only when the answer came and parsed, and they are the lines of its recent messages |
| GitterLog.FetchLogsForRoom | gitter_log.rb:78-84 | a room that the filter rejects does nothing. Otherwise the room requests its messages and, when they arrive and parse, prints them as `print` does |
| GitterLog.RecordRun | gitter_log.rb:69-72 | an unparsable record does nothing; a record makes no request or one request for its own messages |
| GitterLog.FetchRecord | gitter_log.rb:69-72 | one record: parsed into a fresh room and handled; an unparsable record does nothing |
| GitterLog.RoomsRun | gitter_log.rb:68-76 | a rooms run makes at most one request per record, each carrying `Bearer` followed by the run's token |
| GitterLog.RoomsRunStep | gitter_log.rb:68-76 | the run over one more record is the earlier run followed by that record's effects |
| GitterLog.FetchRooms | gitter_log.rb:68-76 | handles the records one after the other, with the effects the specification gives, in list order |
| GitterLog.EffectiveToken | gitter_log.rb:46-48 | a token that starts with `${sec.data.` is replaced by its evaluation through the host; any other token is used as it is |
| GitterLog.FetchLogsSpec | gitter_log.rb:37-64 | the run fails exactly when the server or the token is empty; otherwise its first request is the rooms list with the effective token, and it makes at most one more request per listed room; when the rooms list fails, that one request is all the run does (no lookup, no command, no line) |
| GitterLog.FetchLogs | gitter_log.rb:37-52 | returns the return code and appends exactly the effects that `FetchLogsSpec` gives to the API and host logs |
| GitterLogProperties.ConfigGuard | gitter_log.rb:41-44 | the run fails exactly when the server or the token is empty; then it makes no request, no lookup and no command, and prints one message to the core buffer |
| GitterLogProperties.MessageRequestsAppend | gitter_log.rb:79-81 | the message requests for two id lists joined are the two lists' requests joined, in order |
| GitterLogProperties.RecordRunRequests | gitter_log.rb:78-84 | one record requests its room's messages exactly when it parses and the filter selects it |
| GitterLogProperties.RoomsRunRequests | gitter_log.rb:68-84 | the rooms run requests the messages of every selected room and of no other, one request each, in list order |
| GitterLogProperties.SelectedIdsFromList | gitter_log.rb:79 | every selected id is the id of a listed record that the filter selects |
| GitterLogProperties.SelectedIdsComplete | gitter_log.rb:79 | every listed record that the filter selects has its id selected |
| GitterLogProperties.FetchLogsRequests | gitter_log.rb:117-122 | with a valid configuration, the requests are the rooms list and then the selected rooms' messages; each asks for JSON with the effective bearer token |
| GitterLogProperties.FilterRequestsOnlyNamedRoom | gitter_log.rb:145-147 | with a filter, messages are requested only for rooms whose name is exactly the filter |
| GitterLogProperties.RecordRunJoinsServer | gitter_log.rb:165-171 | every command one record sends goes to the server buffer |
| GitterLogProperties.RoomsRunJoinsServer | gitter_log.rb:165-171 | every command a whole run sends goes to the server buffer |
| GitterLogProperties.FetchLogsOneRoom | gitter_log.rb:68-84 | a one-room run has that room's lookups, commands and lines |
| GitterLogProperties.RoomRunParsed | gitter_log.rb:78-84 | a selected room whose messages arrive and parse has exactly the lookups, commands, lines and cache of `print` on those messages |
| GitterLogProperties.OneRoomParsed | gitter_log.rb:68-84 | a whole run over one such room sends the commands and prints the lines of `print` on its messages |
| GitterLogProperties.OneRecentLine | gitter_log.rb:86-93 | one recent message in a fresh room whose chat has a buffer: its line goes to that buffer and nothing is joined |
| GitterLogProperties.SingleMessage | gitter_log.rb:185-191 | one record with a sender and a date parses to that one message |
| GitterLogProperties.PublicRoomPrints | gitter_log.rb:86-93 | a public room with a channel buffer and one recent message prints its line to `server,#uri` and joins nothing |
| GitterLogProperties.PrivateRoomJoins | gitter_log.rb:165-171 | a private room without a query buffer and with a recent message sends `/Q user` to the server buffer and prints nothing |
| GitterLogProperties.OldMessageNotPrinted | gitter_log.rb:199-201 | a two-day-old message is not printed, and the buffer is not even looked up |
| Signals.JoinSuffix | gitter_log.rb:29 | the extracted text ends the line and leaves room for `JOIN ` before it |
| Signals.JoinSuffixFound | gitter_log.rb:29 | a line has a channel to extract exactly when it holds `JOIN ` |
| Signals.JoinSuffixSplits | gitter_log.rb:29 | the extracted text follows an occurrence of `JOIN `, ends the line and holds no `JOIN ` itself (the greedy `.*` takes the last occurrence) |
| Signals.JoinSuffixOf | gitter_log.rb:29 | conversely, the text after `JOIN ` is extracted when it holds no further `JOIN ` |
| Signals.ChannelOf | gitter_log.rb:29 | the filter taken from the data is never longer than the data |
| Signals.ChannelOfLine | gitter_log.rb:29 | on a single line, the filter is the text after the last `JOIN ` |
| Signals.ChannelOfFirstLine | gitter_log.rb:29 | on data of several lines whose first line holds `JOIN `, that line becomes the text after its last `JOIN ` and the following lines come back unchanged |
| Signals.ChannelOfLaterLine | gitter_log.rb:29 | a first line without `JOIN ` is kept with its newline, and the rest of the data is rewritten on its own, so the first line holding `JOIN ` is the one rewritten |
| Signals.ChannelOfNoJoin | gitter_log.rb:29 | data without `JOIN ` is passed on unchanged |
| Signals.SignalServer | gitter_log.rb:26 | the joined server is the text before the first comma of the signal; there is none when the signal is only commas or empty |
| Signals.OnJoin | gitter_log.rb:25-30 | logs are fetched exactly when the signal's server is the configured one, with the extracted channel as the filter |

## Left out

- The HTTP transport and JSON decoding (`UrlFetcher#perform_request`, `JSON.parse`) are not modelled. The API is a fixed answer per URL: a list of records, or nothing for a non-success status. A malformed JSON body raises in the source and is not modelled.
- One thread per room (`fetch_rooms`) is not modelled. Rooms are handled one after the other, in list order, so the interleaving of the logs between rooms is one of the orders the threads allow.
- Exceptions are modelled per room; the source raises on each of these. A room record with neither a `uri` nor a `user` makes its room do nothing. A room whose message list holds a record without a sender or a date makes its messages request, but prints nothing and sends no command. Other rooms are still handled. The re-raising of the thread's exception through `Thread#join` to WeeChat is not modelled.
- Rooms.RoomRecord: a `user` object without a `username`, and a missing room `id`, are not modelled. In the source both are interpolated as empty strings. The model assumes both are strings.
- Messages.Show: the recency test uses one `now` for the whole `fetch_logs` run, passed to every room's `print`. The source reads `DateTime.now` once per message, in threads that run at different times. Instants are whole seconds, so fractional seconds of `DateTime` are dropped.
- Messages.DateTime: `DateTime.parse` of ISO-8601 text and the calendar conversion inside `strftime` are not modelled. A message's time comes as an instant plus calendar fields already broken down, and the model does not check that the two agree.
- Plugin registration, hooks and configuration defaults (`weechat_init`, `on_gitterlog`) are host plumbing. `on_query`, which only reads two buffer variables through the host, is left out too.
- `Weechat.string_eval_expression`, which expands a secured-data token, is a foreign call. It is a function parameter of `GitterLog.FetchLogs`.
- `Weechat.info_get`, `Weechat.command` and `Weechat.print` are modelled as a fixed lookup function plus logs. The lookup does not change during a run, so a joined channel's buffer appearing later is not modelled.
- Return codes are `RcOk` and `RcError`. `on_join`'s early `WEECHAT_RC_OK` is modelled as "no fetch" (`None`).
