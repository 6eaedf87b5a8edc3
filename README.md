# serverbot: the Minecraft server manager and its control protocol

`minecraft.py` has two halves that talk over one authenticated connection.

The **server manager** runs next to a Minecraft server process. It reads
command lines such as `whitelist add Steve` from the connection and splits
each line on its first space. It runs the command: it starts or stops the
process, or writes console commands such as `whitelist reload` to the
process's standard input. It answers every command with framed replies
`"OK  |…"` or `"ERR |…"`, and forwards every line of server output as
`"LOG |…"`.

The **bot side** receives these frames. It splits each frame on its first
`|` and strips the tag. It posts `LOG` payloads to the server-log channel,
`OK` payloads to the bot channel, and anything else to the bot channel with
the tag in front (`"ERR: …"`).

The model has six modules:

- `Wrappers` holds the `Option` type.
- `Strings` holds the Python string operations the protocol relies on:
  `isspace`, `rstrip`, `lstrip`, `strip`, `split()` and `split(sep, 1)`.
- `Protocol` holds the framing, command-line parsing and the bot's tag
  classifier.
- `Dispatcher` states what `mc_command` does as a value, an `Effect`. An
  `Effect` holds the replies in order, the lines written to the server
  process in order, and whether the server runs afterwards.
- `Supervisor` holds the `Manager` class. Its `running`, `writes` and
  `sent` fields are the process state and the two output streams. Its methods
  follow `mc_running`, `try_send`, `mc_write`, `mc_start`, `mc_stop`,
  `mc_whitelist`, `mc_ls_whitelist`, `mc_command` and one pass of the
  listener loop. The helper methods (`IsRunning`, `Send`, `Write`, `Start`,
  `Stop`, `ChangeWhitelist`, `ListWhitelist`) state their own effect on the
  three fields. `Command`, `WhitelistCommand` and `HandleLine` are proved to
  have exactly the effect that `Dispatch`, `Whitelist` and `Respond` give.
- `Peer` holds the bot's `Bot` class with its two channels, and the
  receive step of its reader loop.

`writes` and `sent` hold the exact text put on each stream, trailing
newline included.

## Model

| member | source | states |
|---|---|---|
| Strings.RStrip | minecraft.py:287 | the result of `rstrip()` is empty or does not end in a blank |
| Strings.RStripSpec | minecraft.py:287 | `rstrip()` returns a prefix of its input, and what it removes is all blanks |
| Strings.RStripIdempotent | minecraft.py:287 | stripping trailing blanks twice is stripping once |
| Strings.RStripAppendSpace | minecraft.py:57 | appending blanks does not change what `rstrip()` returns |
| Strings.LStrip | minecraft.py:57 | the result of `lstrip()` is empty or does not start with a blank |
| Strings.LStripSpec | minecraft.py:57 | `lstrip()` returns a suffix of its input, and what it removes is all blanks |
| Strings.Strip | minecraft.py:57 | `status.strip()`, as `lstrip()` after `rstrip()`; its properties are `StripSpec`, `StripTagField` and `SplitTagJoin` |
| Strings.StripSpec | minecraft.py:57 | `strip()` keeps one slice of its input with only blanks outside it, and the slice neither starts nor ends with a blank |
| Strings.Words | minecraft.py:229 | `args.split()`; its properties are `WordsAreWords`, `WordsEmptyIff`, `WordsCons`, `WordsSkipBlank` and `WordsUnwords` |
| Strings.WordsSkipBlank | minecraft.py:229 | a blank in front changes nothing that `split()` returns |
| Strings.WordsUnwords | minecraft.py:229 | `split()` gives back any sequence of words joined by single spaces |
| Strings.WordsAreWords | minecraft.py:229 | every piece `split()` returns is non-empty and holds no blank |
| Strings.WordsEmptyIff | minecraft.py:228-230 | `split()` returns no word exactly when the text is all blanks |
| Strings.StrippedHasWord | minecraft.py:228-230 | non-empty text that does not end in a blank has a first word, so `arglist[0]` exists |
| Strings.WordsCons | minecraft.py:229 | a word followed by a blank or by nothing is the first piece of `split()`, and the rest is split on its own |
| Strings.WordsPair | minecraft.py:229-233 | two words joined by a space split back into exactly those two words |
| Strings.WordsTriple | minecraft.py:229-233 | three words joined by spaces split back into exactly those three words |
| Strings.SplitFirst | minecraft.py:283 | `split(sep, 1)` has a second part exactly when the separator occurs |
| Strings.SplitFirstSpec | minecraft.py:283 | the first part holds no separator; the input is the first part alone, or the first part, the separator and the rest |
| Strings.SplitFirstJoin | minecraft.py:56 | splitting on the first separator undoes joining with it when the first part holds none, whatever the rest holds |
| Protocol.HelpMsgHasBar | minecraft.py:198-204 | the help text itself contains `|` |
| Protocol.HelpReplyRoutes | minecraft.py:207 | the help reply, `|` and all, is posted whole to the bot channel with the newline `try_send` adds |
| Protocol.TagField | minecraft.py:207-266 | the tag columns `"OK  "` and `"ERR "` of the replies and `"LOG "` of forwarded output; `StripTagField` states that they strip to the tag names |
| Protocol.Format | minecraft.py:145 | a frame, the tag column, `|` and the payload; `FormatRoundTrip` and `ClassifyFormat` state that the bot recovers and routes it |
| Protocol.SplitTag | minecraft.py:56-57 | `line.split('|', 1)` then `status.strip()`; `SplitTagJoin` states its round trip |
| Protocol.Classify | minecraft.py:56-63 | the routing of a received line; `ClassifyFormat`, `ClassifySentLine`, `ClassifyOtherTag` and `HelpReplyRoutes` state where each kind of line goes, and `Bot.Receive` is proved to follow it |
| Protocol.ParseCommand | minecraft.py:283-287 | the argument text the listener passes on never ends in a blank |
| Protocol.ParseCommandSpec | minecraft.py:283-287 | the name is the text before the first space and holds none; there are arguments exactly when the line has a space, and they are the rest with trailing blanks removed |
| Protocol.ParseCommandBare | minecraft.py:283-285 | a line with no space is a command with no arguments |
| Protocol.ParseCommandWithArgs | minecraft.py:283-287 | a name, a space and any text parse to that name and that text, right-stripped, with inner spaces kept |
| Protocol.SplitTagJoin | minecraft.py:56-57 | any tag without `|`, and any payload even one full of `|`, come back as the stripped tag and the exact payload |
| Protocol.StripTagField | minecraft.py:57 | the padded tags `"LOG "`, `"OK  "` and `"ERR "` strip to `LOG`, `OK` and `ERR` |
| Protocol.FormatRoundTrip | minecraft.py:56-57 | for every framed message the bot recovers the tag name and the exact payload |
| Protocol.ClassifyFormat | minecraft.py:56-63 | every framed message is routed as its tag says: `LOG` to the log channel, `OK` as is, `ERR` with `"ERR: "` in front |
| Protocol.ClassifySentLine | minecraft.py:92-94 | with the newline `try_send` adds, a reply is still routed by its tag, and the newline stays in the payload |
| Protocol.ClassifyOtherTag | minecraft.py:62-63 | a tag other than `LOG` and `OK` goes to the bot channel as `"<tag>: <payload>"` |
| Dispatcher.Whitelist | minecraft.py:227-256 | the whitelist branch as a value; `WhitelistMisuse`, `WhitelistWritesIff`, `WhitelistChange` and `WhitelistList` state its cases, and `Manager.WhitelistCommand` is proved equal to it |
| Dispatcher.Dispatch | minecraft.py:196-266 | `mc_command` as a value; the lemmas below state it command by command, and `Manager.Command` is proved equal to it |
| Dispatcher.Respond | minecraft.py:282-288 | one received line, parsed and dispatched; `RespondSplitsName` and `RespondWhitelist` state how, and `Manager.HandleLine` is proved equal to it |
| Dispatcher.NoWritesWhenStopped | minecraft.py:196-266 | no command writes to the server process while it is stopped |
| Dispatcher.RunningAfter | minecraft.py:196-266 | only `start` and `stop` change the running state; `start` leaves it running and `stop` leaves it stopped |
| Dispatcher.ReplyShape | minecraft.py:206-266 | a recognised command gets one reply and any other gets two; no reply is tagged `LOG` |
| Dispatcher.StatusRoutes | minecraft.py:56-63 | replies not tagged `LOG`, as sent, are all routed to the bot channel by their own tag |
| Dispatcher.RepliesReachBotChannel | minecraft.py:206-266 | every reply to every command reaches the bot channel, never the log channel |
| Dispatcher.StartCommand | minecraft.py:208-213 | `start` refuses while the server runs and otherwise starts it; either way it runs afterwards and nothing is written |
| Dispatcher.StopCommand | minecraft.py:214-219 | `stop` writes exactly `stop` to a running server and leaves it stopped; on a stopped server it writes nothing |
| Dispatcher.QueryCommands | minecraft.py:206-226 | `help`, `ping` and `status` each send one `OK` reply, write nothing and change nothing; only `status` depends on the state |
| Dispatcher.UnknownCommand | minecraft.py:264-266 | an unrecognised name gets an error naming it followed by the help text, and changes nothing |
| Dispatcher.WhitelistMisuse | minecraft.py:228-256 | no arguments, an unknown subcommand, or `add`/`remove` without exactly one name give the usage error and write nothing, running or not |
| Dispatcher.WhitelistWritesIff | minecraft.py:227-256 | `whitelist` writes to the server exactly when it runs and the arguments are well formed |
| Dispatcher.DispatchWhitelist | minecraft.py:227 | a `whitelist` command is handled by the whitelist branch alone |
| Dispatcher.WhitelistChange | minecraft.py:241-254 | a verb and one name write the add or remove command and then `whitelist reload` to a running server; otherwise only "not running" is reported |
| Dispatcher.WhitelistList | minecraft.py:234-240 | a first word `list` writes only `whitelist list` to a running server, whatever follows |
| Dispatcher.RespondSplitsName | minecraft.py:283-288 | a received line is dispatched as its name and its right-stripped rest |
| Dispatcher.RespondWhitelist | minecraft.py:283-288 | a `whitelist …` line reaches the whitelist branch with its right-stripped arguments |
| Dispatcher.WhitelistChangeLine | minecraft.py:241-254 | `whitelist add <player>` or `remove <player>`, with any trailing blanks, writes the edit and the reload when running and only reports "not running" otherwise |
| Dispatcher.VerbAndName | minecraft.py:229-233 | argument text of a verb and one name needs no stripping and splits into exactly those two words |
| Dispatcher.VerbAndTwoNames | minecraft.py:229-233 | argument text of a verb and two names needs no stripping and splits into words the whitelist branch rejects |
| Dispatcher.WhitelistTooManyNames | minecraft.py:229-256 | `add` or `remove` followed by two names is a usage error that writes nothing |
| Dispatcher.WhitelistNoName | minecraft.py:229-256 | `add` or `remove` with no name is a usage error that writes nothing |
| Dispatcher.WhitelistListLine | minecraft.py:229-240 | `whitelist list`, a space and any text lists the whitelist; the bare line `whitelist list` follows from `RespondWhitelist` and `WhitelistList` |
| Dispatcher.ListStaysFirst | minecraft.py:229-234 | after `list ` and right-stripping, the first word is still `list` |
| Dispatcher.ExampleWhitelistAddSteve | minecraft.py:241-247 | `whitelist add Steve` on a running server writes `whitelist add Steve` and `whitelist reload` and says the user was added |
| Dispatcher.ExampleStatusStopped | minecraft.py:222-226 | `status` on a stopped server reports that it is not running |
| Dispatcher.ExampleUnknownFoo | minecraft.py:264-266 | `foo` is answered with `Unknown command: foo` and the help text |
| Dispatcher.ExampleWhitelistAlone | minecraft.py:228-256 | `whitelist` with no arguments is a usage error |
| Supervisor.Frames | minecraft.py:92-94 | the frames `try_send` puts on the wire for a list of replies; `FramesSpec` states them |
| Supervisor.FramesSpec | minecraft.py:92-94 | one frame per reply, in the same order, each the formatted reply and a newline |
| Supervisor.Manager.constructor | minecraft.py:22-23 | there is no process at first, and nothing has been written or sent |
| Supervisor.Manager.IsRunning | minecraft.py:88-89 | reports whether the server process runs |
| Supervisor.Manager.Send | minecraft.py:92-94 | appends the message and a newline to what was sent to the bot, and changes nothing else |
| Supervisor.Manager.Write | minecraft.py:101-106 | appends the command and a newline to the process input when a process runs; with none, nothing changes |
| Supervisor.Manager.Start | minecraft.py:109-158 | returns false if the server already runs and true otherwise; the server runs afterwards and nothing is written or sent |
| Supervisor.Manager.Stop | minecraft.py:161-172 | returns whether the server was running; if it was, writes exactly `stop`; it is stopped afterwards |
| Supervisor.Manager.ChangeWhitelist | minecraft.py:175-185 | returns whether the server runs; if it does, writes the add or remove command and then `whitelist reload` |
| Supervisor.Manager.ListWhitelist | minecraft.py:188-193 | returns whether the server runs; if it does, writes `whitelist list` |
| Supervisor.Manager.Command | minecraft.py:196-266 | the new running state, the lines written and the frames sent are exactly those `Dispatch` gives for the old state |
| Supervisor.Manager.WhitelistCommand | minecraft.py:227-256 | the early-returning whitelist branch has exactly the effect `Whitelist` gives |
| Supervisor.Manager.HandleLine | minecraft.py:282-288 | one listener pass has exactly the effect `Respond` gives for the received line |
| Peer.Bot.constructor | minecraft.py:40-41 | both channels start empty |
| Peer.Bot.Receive | minecraft.py:55-63 | a received line is posted to exactly one channel, as `Classify` routes it; the other channel is unchanged |
| Peer.DeliverReply | minecraft.py:56-63 | a reply that is not `LOG`, once sent and received, is appended to the bot channel as its tag says |
| Peer.PingRoundTrip | minecraft.py:220-221 | `ping` sends one `OK` frame, changes nothing else on the manager, and the bot posts `pong` and a newline to its channel |

## Left out

- Process spawning (`sp.Popen`, lines 118-122) is reduced to the `running`
  flag. So is `poll()`. A server that exits on its own, without `stop`, is
  not modelled: `running` changes only through `Start` and `Stop`.
- Manager.Stop: the poll loop that waits for the process to exit (lines
  169-170) is one atomic step, and the one-second sleeps are not modelled.
- Manager.Write: the stdin flush and the encoding to bytes are not
  modelled. A write to a process that has died but is still set is not
  modelled either, since `running` reflects only `Start` and `Stop`.
- Manager.Send: a failed send (`OSError` or `AttributeError`, lines 95-98)
  only prints a message in the source. The model appends every message to
  `sent`, as if the connection were always up.
- The process reader thread (lines 126-156), which forwards server output as
  `"LOG |<line>"`, is not a method. Its framing is `Format(Message(LOG, …))`,
  and `Protocol.ClassifyFormat` covers how the bot routes it. Its retry and
  reconnect logic is not modelled.
- The connection itself (`Listener`, `accept`, `Client`, `recv`, `close`),
  the accept and reconnect loops (lines 44-70, 268-291), and their status
  messages ("manager connected", "manager crashed", lines 48 and 65) are not
  modelled. The loops are reduced to one received line:
  `Manager.HandleLine` on the manager's side and `Bot.Receive` on the bot's
  side.
- Bot.Receive: it requires a `|` in the line. With none, the source raises
  an uncaught `ValueError` in the reader thread.
- The bot-side `try_send` (lines 72-78) and the Discord channel lookups are
  not modelled. The asynchronous channel sends become appends to the two
  channel sequences.
- Environment loading (lines 13-19) is not modelled, and neither are
  authentication or the `print` logging.
- Dispatcher.Dispatch and Manager.Command require that the argument text is
  absent, empty or does not end in a blank. This is what the listener's
  `rstrip()` guarantees. Called directly with all-blank arguments, the
  source's `whitelist` branch raises `IndexError` on `arglist[0]`.
- The commented-out `cmd` command (lines 205 and 258-263) is not part of the
  program and is not modelled.
- Plain strings stand for Python's `str`: there is no byte decoding of
  server output and no Unicode normalisation. Blanks are exactly the
  characters `str.isspace` accepts.
