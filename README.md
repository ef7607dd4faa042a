# tg48 in Dafny

tg48 is a Telegram bot for the game Mk48. It keeps one websocket connection to
the game server. On connect it asks for a session, then keeps reading events.
Each leaderboard update it receives is stored in a per-period cache. Two chat
commands read the bot's state: `/start` greets the user and `/leaderboard
[weekly|daily|alltime]` renders the cached list as a Markdown code block.

This project models that core and proves properties of the model:

- `wire.dfy` (module `Wire`) holds the message shapes of `pkg/mk48/structs.go`:
  `CreateSession`, `SessionCreated`, `LeaderboardEntry`, `LeaderboardUpdate`, the
  open `LeaderboardPeriod` string type with its three constants, the `Name()`
  envelope tags and the inbound `Event`. Each shape is encoded or decoded in
  the direction it travels: `CreateSession` is only sent, `SessionCreated` and
  `Event` are only received, and leaderboard entries and updates go both ways.
  The struct-tag key names (`alias`, `LeaderboardUpdated`, ...) are kept.
- `json.dfy` (module `Json`) is a small JSON value type. It has member lookup,
  the grammar of a `json.Number` literal and Go's compact serialiser with its
  HTML-safe string escaping. Numbers are kept as their literal text.
- `decimal.dfy` (module `Decimal`) holds decimal formatting (`%d`), integer
  parsing and space padding (`%-Ns`).
- `mk48.dfy` (module `Mk48`) is the game client: `send`, `recv`, `Listen`, `New`
  and `Close`. The websocket is abstract. What the network answers is passed in
  as a parameter: whether a dial, write or close succeeds, and the sequence of
  frames the reads return. Every operation performed is appended to the log of
  a `World` object. `Listen` is proved against the function `Run`, which gives
  the effects and the stop reason of a run over a frame sequence.
- `tg48.dfy` (module `Tg48`) is the bot side of `cmd/tg48/main.go`:
  - splitting and command lookup;
  - the `start` and `leaderboard` commands;
  - the exact leaderboard table;
  - the `leaderboard` cache, as class `Bot` with a map field that the update
    handler overwrites one period at a time;
  - the reply addressing of `handleMessage`.
- `wrappers.dfy` and `sequences.dfy` hold `Option`/`Result` and one sequence lemma.

Strings are sequences of Unicode code points. The length of a string is
therefore its rune count, which is what the table's padding counts. Go's `int`
is the 64-bit `Wire.GoInt`. A panic is modelled as a result value rather
than as process exit: `Listen`'s `log.Panic` when `recv` fails and its
dereference of a nil `*Event` (`Mk48.Stop.Panicked`), and the panic of
`strings.Repeat` on a name over 20 runes (`Tg48.Outcome.Panicked`).

Two behaviours of the code are easy to miss:

- Nothing makes an event's two variants exclusive. A single frame can fill
  both variants, or neither (`Wire.BothVariants`, `Wire.EmptyEvents`).
- A `LeaderboardUpdate` is sent under the tag `LeaderboardUpdate` but received
  from the key `LeaderboardUpdated`. Sending one and decoding it as an event
  therefore does not give the update back (`Wire.SentUpdateIsNotAnEvent`).

## Model

| member | source | states |
|---|---|---|
| Decimal.FormatInt | cmd/tg48/main.go:68 | `%d` text of an int: non-empty, a leading `-` exactly for negatives, digits otherwise |
| Decimal.ParseFormat | pkg/mk48/structs.go:20 | the decimal text of any integer parses back to that integer |
| Decimal.Repeat | cmd/tg48/main.go:59-68 | `strings.Repeat`: exactly n copies of the character |
| Decimal.PadRight | cmd/tg48/main.go:59-68 | `%-Ns`: the text kept as prefix, padded with spaces on the right to at least N runes |
| Decimal.ParseInt | pkg/mk48/structs.go:11-21 | reference definition of the decimal reading of an int field's text: an optional sign then at least one digit |
| Json.Get | pkg/mk48/mk48.go:40 | a key's member is found iff some member has that key, and the value found is one held under the key |
| Json.GetOtherKey | pkg/mk48/mk48.go:40 | a member with another key does not change a lookup |
| Json.FormatIntIsNumber | pkg/mk48/structs.go:12-15 | every formatted integer is a valid `json.Number` literal |
| Json.EscapeChar | pkg/mk48/mk48.go:23 | a plain character is written as itself by the marshaller |
| Json.EscapePlain | pkg/mk48/mk48.go:23 | a string of plain characters is written unescaped |
| Json.QuotePlain | pkg/mk48/mk48.go:23 | a string of plain characters is quoted as `"s"` |
| Json.SerializeSingleMember | pkg/mk48/mk48.go:23-25 | a one-member object is written as `{key:value}` in compact form |
| Json.SerializePlainMember | pkg/mk48/mk48.go:23-25 | a one-member object with a plain key is written as `{"key":value}` |
| Json.IsNumberLiteral | pkg/mk48/structs.go:14-15 | reference definition of a valid `json.Number` text: optional `-`, an integer part without leading zeros, an optional fraction and exponent |
| Json.Escape | pkg/mk48/mk48.go:23 | reference definition of the marshaller's HTML-safe string escaping, character by character |
| Json.Quote | pkg/mk48/mk48.go:23 | reference definition of a JSON string literal: the escaped text between quotes |
| Json.Serialize | pkg/mk48/mk48.go:23-25 | reference definition of `json.Marshal`'s compact text for a JSON value |
| Wire.DecodeString | pkg/mk48/structs.go:18-34 | a string field accepts a string, `null` or a missing key (giving `""`) and rejects everything else |
| Wire.DecodeInt | pkg/mk48/structs.go:11-21 | an int field is accepted exactly when it is missing, `null` (both read as 0) or a number whose text parses to a 64-bit value, which is then the field's value; strings, booleans, arrays and objects are rejected |
| Wire.DecodeNumber | pkg/mk48/structs.go:14-15 | a `json.Number` field is accepted exactly when it is missing or `null` (both read as `""`), a number (its text) or a string holding a valid number literal (that string); booleans, arrays and objects are rejected |
| Wire.DecodeEntries | pkg/mk48/structs.go:32 | a list decodes iff every entry does, with the same length and each entry in its place |
| Wire.EntryRoundTrip | pkg/mk48/structs.go:18-21 | an entry encoded under `alias`/`score` decodes to the same entry |
| Wire.UpdateRoundTrip | pkg/mk48/structs.go:31-34 | an update encoded under `leaderboard`/`period` decodes to the same update, with its list in order and any period string |
| Wire.UpdateVariantByKey | pkg/mk48/structs.go:42-45 | an update's encoding under a key fills the update variant iff the key is `LeaderboardUpdated` |
| Wire.UpdateUnderItsKey | pkg/mk48/structs.go:44 | under `LeaderboardUpdated` the event carries exactly that update and no session |
| Wire.UpdateUnderSessionKey | pkg/mk48/structs.go:43 | under `SessionCreated` the update's fields are ignored and a zero session is filled |
| Wire.SentUpdateIsNotAnEvent | pkg/mk48/structs.go:36-44 | an update wrapped as `send` does and read as an event gives an event with neither variant |
| Wire.EnvelopeShape | pkg/mk48/mk48.go:23-25 | the envelope is an object with the single key `Name()`, holding the message's encoding |
| Wire.EnvelopeText | pkg/mk48/mk48.go:23-25 | the envelope's text is `{"<Name()>":<encoding>}` |
| Wire.NamePlain | pkg/mk48/structs.go:9-36 | the envelope tags need no escaping |
| Wire.UnknownKeyIgnored | pkg/mk48/structs.go:42-45 | a member under an unknown key changes nothing in the decoded event |
| Wire.EmptyEvents | pkg/mk48/structs.go:42-45 | `{}` and an object of unknown keys decode to an empty event; `null` decodes to no event |
| Wire.BothVariants | pkg/mk48/structs.go:42-45 | one frame can fill both variants |
| Wire.DecodeErrors | pkg/mk48/structs.go:18-21 | a frame that is neither an object nor `null` fails, and so does an entry whose score is a string |
| Wire.SessionCreatedFields | pkg/mk48/structs.go:11-16 | for all 64-bit ids, a number under `session_id` and a string under `player_id`, the object decodes to those values when the string is a valid number literal and is an `InvalidNumber` error otherwise |
| Wire.SessionCreatedValues | pkg/mk48/structs.go:11-16 | the same decoding stated on the four field values |
| Wire.IntFieldRoundTrip | pkg/mk48/structs.go:12-13 | a 64-bit integer's text decodes back to it as an int field |
| Wire.Message.Name | pkg/mk48/structs.go:9-36 | reference definition of the envelope tags: `CreateSession` and `LeaderboardUpdate` |
| Wire.EncodeCreateSession | pkg/mk48/structs.go:5-7 | reference definition of the session request's fields: `game_id` only |
| Wire.EncodeEntry | pkg/mk48/structs.go:18-21 | reference definition of an entry's fields: `alias` and `score` |
| Wire.EncodeUpdate | pkg/mk48/structs.go:31-34 | reference definition of an update's fields: `leaderboard`, then `period` |
| Wire.Envelope | pkg/mk48/mk48.go:23-25 | reference definition of the one-entry map that `send` marshals |
| Wire.Encode | pkg/mk48/mk48.go:24 | reference definition of the marshalled `data`: each message's own field encoding |
| Wire.DecodeEntry | pkg/mk48/structs.go:18-21 | reference definition of decoding one entry: `null` gives a zero entry, an object its `alias` and `score`, anything else an error |
| Wire.DecodeUpdate | pkg/mk48/structs.go:31-34 | reference definition of decoding an update from its `leaderboard` array and `period` string |
| Wire.DecodeSessionCreated | pkg/mk48/structs.go:11-16 | reference definition of decoding a session from its four keys |
| Wire.DecodeSessionCreatedFields | pkg/mk48/structs.go:11-16 | reference definition of the session fields' decoding, reporting the first field that fails |
| Wire.DecodeSessionCreatedField | pkg/mk48/structs.go:43 | reference definition of the `SessionCreated` pointer: absent or `null` leaves it nil, an object fills it |
| Wire.DecodeUpdateField | pkg/mk48/structs.go:44 | reference definition of the `LeaderboardUpdate` pointer: absent or `null` leaves it nil, an object fills it |
| Wire.DecodeEvent | pkg/mk48/structs.go:42-45 | reference definition of unmarshalling a frame into a nil `*Event`: `null` leaves it nil, an object fills the variants by key, anything else is an error |
| Wire.DecodeEventFields | pkg/mk48/structs.go:42-45 | reference definition of the event built from the values under its two keys |
| Mk48.Send | pkg/mk48/mk48.go:22-31 | exactly one write, of the envelope's text, returning the write's error |
| Mk48.Recv | pkg/mk48/mk48.go:33-42 | a read error and unparsable text are errors; otherwise the result is the event decoding, `null` giving no event |
| Mk48.Receive | pkg/mk48/mk48.go:48-54 | a loop iteration goes on exactly when the frame decodes to an event |
| Mk48.Dispatch | pkg/mk48/mk48.go:53-58 | one handler call, with the update, iff the event has an update and a handler is set; none otherwise |
| Mk48.RunAppend | pkg/mk48/mk48.go:47-59 | a run over `a + b` is the run over `a` continued over `b` unless it stopped |
| Mk48.RunSnoc | pkg/mk48/mk48.go:47-59 | a waiting run over `a` extended by one frame adds that frame's effects |
| Mk48.RunOne | pkg/mk48/mk48.go:47-58 | the effects and stop of one iteration, case by case |
| Mk48.RunStopped | pkg/mk48/mk48.go:49-51 | frames after a panic are never processed |
| Mk48.ListenDelivers | pkg/mk48/mk48.go:53-58 | the handler is called exactly with the updates of the decoded frames, in arrival order, and never without a handler |
| Mk48.ListenStopsAtFirstFailure | pkg/mk48/mk48.go:40-54 | the loop panics with the first failing frame's error, after exactly that many reads |
| Mk48.ListenWaitsWithoutFailure | pkg/mk48/mk48.go:47-59 | with no failing frame the loop reads every frame and is still waiting |
| Mk48.API.constructor | pkg/mk48/mk48.go:84 | the API holds the connection, no session and no handler |
| Mk48.API.SetLeaderboardHandler | cmd/tg48/main.go:131 | registers the handler and changes nothing else |
| Mk48.API.Listen | pkg/mk48/mk48.go:46-60 | appends exactly `Run`'s effects to the log and stops as `Run` says |
| Mk48.API.Close | pkg/mk48/mk48.go:62-70 | closes `session` first only when there is one; a failure there returns before `ws`; otherwise closes `ws` and returns its error |
| Mk48.New | pkg/mk48/mk48.go:72-85 | dials endpoint + `/?format=json`; on a failed dial nothing is sent; otherwise exactly one write of the session request; returns no API if it fails and a fresh API without session or handler if not; no read |
| Mk48.SessionRequestShape | pkg/mk48/mk48.go:77-79 | the session request's text in its envelope form |
| Mk48.SessionRequestText | pkg/mk48/mk48.go:77-79 | the session request is exactly `{"CreateSession":{"game_id":"Mk48"}}` |
| Mk48.Run | pkg/mk48/mk48.go:47-59 | reference definition of the loop over a frame sequence: per frame a read, then a panic or the dispatch, until a panic or the last frame |
| Tg48.Split | cmd/tg48/main.go:78 | `strings.Split(s, " ")` gives at least one piece and no piece holds a space |
| Tg48.JoinCons | cmd/tg48/main.go:78 | joining a head piece onto the rest |
| Tg48.JoinSplit | cmd/tg48/main.go:78 | the pieces joined by single spaces give the text back |
| Tg48.SplitWord | cmd/tg48/main.go:78 | a space-free word glues onto the first piece of what follows |
| Tg48.SplitJoin | cmd/tg48/main.go:78 | splitting the join of space-free pieces gives the same pieces, empty ones included |
| Tg48.ParseCommand | cmd/tg48/main.go:78-85 | name and arguments are space-free, and the text is their join, with one `/` in front when the text starts with one |
| Tg48.ParseJoin | cmd/tg48/main.go:78-85 | the name is the first piece with at most one `/` removed and the arguments are exactly the other pieces |
| Tg48.ChoosePeriod | cmd/tg48/main.go:36-58 | Weekly iff the first argument is `weekly`, Daily iff it is `daily`, AllTime otherwise or without arguments |
| Tg48.ChoosePeriodFirstOnly | cmd/tg48/main.go:53-58 | arguments after the first never change the period |
| Tg48.HeaderText | cmd/tg48/main.go:59-63 | the header is `| Player`, 14 spaces, ` | Score`, 5 spaces and ` |`, then a line of 22 and 12 dashes between bars; two lines of 38 characters |
| Tg48.RowFields | cmd/tg48/main.go:67-68 | a row is a bar, the name padded to 20 runes, a bar, the score padded to 10 and a closing bar, each bar set off by spaces; the name sits at offset 2 |
| Tg48.Lines | cmd/tg48/main.go:66-69 | one row per entry, in stored order |
| Tg48.UnlinesAppend | cmd/tg48/main.go:66-69 | lines of a concatenation are written one block after the other |
| Tg48.RowsAppend | cmd/tg48/main.go:66-69 | the rows of `a + b` are the rows of `a` then those of `b` |
| Tg48.LinesAppend | cmd/tg48/main.go:66-69 | if the names of `a` and of `b` fit, so do those of `a + b`, and its lines are the lines of `a` then those of `b` |
| Tg48.RowsSnoc | cmd/tg48/main.go:66-69 | one more entry adds its row at the end |
| Tg48.AppendRows | cmd/tg48/main.go:66-69 | the loop succeeds iff every name fits 20 runes, and then appends exactly the rows of the entries |
| Tg48.UnlinesBlocks | cmd/tg48/main.go:66-69 | equal-width lines lie end to end: line i is the i-th block |
| Tg48.RowsLayout | cmd/tg48/main.go:66-69 | with scores of at most ten characters, entry i is the i-th 38-character block of the rows |
| Tg48.Start | cmd/tg48/main.go:43-51 | the reply is `Welcome home, ` followed by the first argument, or `Theseus` without arguments, with no parse mode |
| Tg48.Stored | cmd/tg48/main.go:66 | a period missing from the cache reads as an empty list |
| Tg48.StartCommand | cmd/tg48/main.go:43-85 | a `start` command always replies with the greeting of its first argument or Theseus |
| Tg48.LeaderboardCommand | cmd/tg48/main.go:52-85 | a `leaderboard` command renders the chosen period's stored list in MarkdownV2, or panics on a name over 20 runes |
| Tg48.UnknownCommandSilent | cmd/tg48/main.go:42-89 | there is no reply iff the name is neither `start` nor `leaderboard` |
| Tg48.ParseTrailingSpace | cmd/tg48/main.go:78-85 | `/start ` parses to `start` with one empty argument |
| Tg48.StartTrailingSpace | cmd/tg48/main.go:44-50 | `/start ` replies exactly `Welcome home, ` |
| Tg48.NeverUpdated | cmd/tg48/main.go:66-73 | a period never updated renders the header alone in a code block, in MarkdownV2 |
| Tg48.LeaderboardPanics | cmd/tg48/main.go:67-68 | the command panics iff a name of the chosen period is longer than 20 runes |
| Tg48.Apply | cmd/tg48/main.go:134 | the updated period holds exactly the new list; every other period keeps its list; the period becomes a key |
| Tg48.LastWins | cmd/tg48/main.go:131-135 | after a sequence of updates, a period holds the list of its last update |
| Tg48.UntouchedPeriod | cmd/tg48/main.go:131-135 | a period no update names keeps its list |
| Tg48.MessageReply | cmd/tg48/main.go:92-97 | no reply unless the first entity is a command; a command message replies, panics or stays silent exactly as its command does, and a reply carries the command's text and parse mode, addressed to the message and its chat |
| Tg48.Join | cmd/tg48/main.go:78 | reference definition of joining pieces with single spaces, the partner of `Split` |
| Tg48.TrimSlash | cmd/tg48/main.go:80 | reference definition of removing at most one leading slash |
| Tg48.Periods | cmd/tg48/main.go:36-40 | reference definition of `leaderboardPeriods`: `alltime`, `weekly` and `daily` mapped to the three periods |
| Tg48.Header | cmd/tg48/main.go:59-63 | reference definition of the table header: the two column titles padded to 20 and 10 runes between bars, then a rule of 22 and 12 dashes |
| Tg48.Fits | cmd/tg48/main.go:67-68 | reference definition of every name fitting its 20-rune column |
| Tg48.Row | cmd/tg48/main.go:67-68 | reference definition of one table row |
| Tg48.Rows | cmd/tg48/main.go:66-69 | reference definition of the rows of a list, one after the other in stored order |
| Tg48.Fenced | cmd/tg48/main.go:71 | reference definition of the Markdown code block around the table |
| Tg48.Table | cmd/tg48/main.go:59-73 | reference definition of the reply text: the header and the rows in a code block |
| Tg48.LeaderboardReply | cmd/tg48/main.go:52-74 | reference definition of the `leaderboard` outcome: the table of the chosen period's stored list in MarkdownV2, or a panic |
| Tg48.CommandReply | cmd/tg48/main.go:77-90 | reference definition of `handleCommand`: look up the parsed name, run `start` or `leaderboard`, no reply otherwise |
| Tg48.Replay | cmd/tg48/main.go:131-135 | reference definition of a sequence of cache updates, applied in order |
| Tg48.IsCommand | cmd/tg48/main.go:93 | reference definition of a command entity: its type is `bot_command` |
| Tg48.Bot.constructor | cmd/tg48/main.go:29-30 | the cache starts empty |
| Tg48.Bot.OnLeaderboardUpdate | cmd/tg48/main.go:131-135 | the cache becomes `Apply` of the old cache and the update |
| Tg48.Bot.Leaderboard | cmd/tg48/main.go:52-74 | the closure's outcome is the `leaderboard` reply over the current cache |
| Tg48.Bot.HandleCommand | cmd/tg48/main.go:77-90 | the outcome is `CommandReply` over the current cache |
| Tg48.Bot.HandleMessage | cmd/tg48/main.go:92-97 | the outcome is `MessageReply` over the current cache |

## Left out

- Telegram Bot API: `NewBotAPI`, `GetUpdatesChan`, `bot.Send` and the `log.Panic` on a failed send are I/O. `handleMessage` stops at the addressed reply it would send.
- `MessageEntity.IsCommand` comes from the Telegram library, which is not part of this model; it is taken to be "the entity type is `bot_command`".
- WebSocket dial, read, write and close, and `context`: foreign I/O. They are replaced by parameters and the `World` log. Errors from the library are one abstract `Transport` value.
- The value of `EndpointWebsocket` is defined in a file that is not part of this model, so `New` takes the endpoint as a parameter.
- `Mk48.API.Listen`: the loop never ends in Go; the model runs it over a finite frame sequence, and running out of frames means it is blocked in a read (`Waiting`).
- JSON text parsing: a frame is either a JSON value or unparsable (`Malformed`); the grammar of JSON text is not modelled.
- Parts of `encoding/json` are not modelled:
  - case-insensitive matching of keys to fields;
  - merging of duplicate keys (the model reads the last occurrence of a key);
  - the difference between a nil and an empty slice (both encode as `[]`);
  - which error is reported when a frame has several faults (the model reports the first field in declaration order).
- Control characters `\b` and `\f` are escaped as `\u0008` and `\u000c`; newer Go versions write the short form.
- `send`'s encode-error branch (`pkg/mk48/mk48.go:26-28`) cannot be reached for these message shapes, which always encode, so it is not modelled.
- Concurrency: the `sync.RWMutex` around the cache and the `go client.Listen()` goroutine. The cache is modelled sequentially; each update replaces one period's list at once.
- `recvTimeout` and `Handlers.Message` are never used by this code. `session` is never assigned, but `Close` checks it, so it is kept as a field that starts empty.
- Startup plumbing: `dotenv` loading, environment reads and `main`'s wiring.
- `Tg48.AppendRows`: the renderer loop is a method of its own that the `leaderboard` method calls; it stops with no result at the first name longer than 20 runes, where Go panics.
