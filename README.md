# logbot — a verified model of the chat-log bot's core

The bot joins a fixed list of chat channels. It writes every public
message to a per-channel, per-day message log, and every join and part
to a matching join log. It keeps one table (`cdata`) from channel name to
an entry. Each entry holds:

- the UTC date the files were opened for;
- an append handle on each of the two files;
- for each handle, the time it was last flushed.

A write first rotates the channel's files if the date has changed. It
then appends the line, and flushes the handle when more than five seconds
have passed since that handle's last flush. On a disconnect the bot
schedules a check. The check keeps re-scheduling itself and trying to
connect until the connection is back.

The model has four modules:

- `LogFormat` (`log_format.dfy`): the two file names, the three line
  formats and the ping constants. It also has parsers that read a name or
  a line back, which are used to prove that the formats can be told apart.
- `LogStore` (`log_store.dfy`): the table as a value, `Store(cdata,
  handles)`, with `reopen`, `_check_date`, `write_msg`/`write_join` and the
  closing loop of `quit` as functions, and the lemmas about them.
  - File objects are modelled as positions in `handles`, the sequence of
    every handle ever opened. A handle the table drops keeps existing, so
    rotation can be seen to close the old message handle and to drop the
    old join handle without an explicit close.
  - `Valid` is the table invariant. Each entry's handles exist, differ and
    are that entry's files for its date. No two entries share a handle.
- `Reconnect` (`reconnect.dfy`): the reconnect rule as a two-field state.
  The state is whether the connection is up and how many checks are
  scheduled. Lemmas cover runs of scheduled checks.
- `Bot` (`log_bot.dfy`): the class `LogBot`.
  - Its fields are updated in place by methods that follow the source
    handler by handler.
  - Each method's postcondition ties the new state to the matching
    `LogStore` or `Reconnect` function of the old state.
  - Requests to the chat library (connect, join, message, quit) are
    appended to the field `sent`.

Four facts about the code shape the model:

- A part event is logged with no check for a live entry.
- Writing to a channel with no entry is an error (`NoEntry`). The files
  are not opened on the fly.
- Rotation explicitly closes only the old message handle. The old join
  handle is dropped without an explicit close.
- The bot has no channel reconciliation, no join queue and no
  `!logreload` command.

## Model

| member | source | states |
|---|---|---|
| LogFormat.LogPath | logbot.py:48-50 | a log file name is the kind's directory (`logs/` or `logs/joins/`), then the date, a dash, the channel name and `.log` |
| LogFormat.LogPathDateInjective | logbot.py:48-50 | for one kind and channel, two file names are equal only for the same date, whatever the date strings are |
| LogFormat.ParseLogPathInverts | logbot.py:48-50 | a message or join log name for a well-formed date reads back as its kind, date and channel |
| LogFormat.LogPathInjective | logbot.py:48-50 | two log file names are equal only for the same kind, date and channel, so a message log never shares a file with a join log |
| LogFormat.Line | logbot.py:101-111 | a log line is the time stamp and a space, then `<` for a message or `JOIN `/`PART ` for a join or part. A message line continues with the user name, `> ` and the text; a join or part line ends with the user name |
| LogFormat.ParseSaidLine | logbot.py:102 | a message line `{time} <{user}> {text}` reads back as that time, user and text when the user name holds no `>` |
| LogFormat.ParseJoinLine | logbot.py:108 | a join line `{time} JOIN {user}` reads back as that join |
| LogFormat.ParsePartLine | logbot.py:111 | a part line `{time} PART {user}` reads back as that part, never as a join |
| LogFormat.ParseLineInverts | logbot.py:101-111 | every line the handlers write reads back as the event that produced it |
| LogStore.Reopen | logbot.py:39-50 | reopening a channel keeps the table invariant: no handle has flushed more than was written, each entry's two handles are distinct and lie on its own message and join files for its date, and no two entries share a handle |
| LogStore.ReopenSpec | logbot.py:39-50 | the channel is added to the table. Its entry has today's date, both last-flush times 0, and two newly opened handles on today's message and join files. An existing entry's message handle is closed and its join handle is left as it was. No other entry or handle changes |
| LogStore.ReopenKeepsFresh | logbot.py:39-50 | reopening one channel leaves every other channel's freshly opened entry as it was |
| LogStore.ReopenKeepsOpen | logbot.py:39-50 | if every handle in the table is open, reopening keeps it so |
| LogStore.CheckDate | logbot.py:54-56 | leaves the store unchanged when the entry's date is today, and reopens exactly when it is not. After it the entry's date is today |
| LogStore.CheckDateHandles | logbot.py:54-56 | after the date check each handle of the channel is either the old one with its old last-flush time, or a new handle on today's file with last-flush time 0 |
| LogStore.OpenAppend | logbot.py:48-50 | `open(name, 'a')` gives an open handle on that file, with nothing written or flushed |
| LogStore.Closed | logbot.py:41 | `close()`, also at logbot.py:118-119, leaves the handle closed with its contents intact and all of them flushed. Closing a closed, flushed handle changes nothing |
| LogStore.Flushed | logbot.py:64 | `flush()`, also at logbot.py:73, flushes everything written so far and changes nothing else |
| LogStore.Appended | logbot.py:61 | `write(chunk)`, also at logbot.py:70, puts the chunk after what was written before. The flushed prefix does not grow, and the file and open state are kept |
| LogStore.AppendLine | logbot.py:61-65 | the line plus a newline is appended to that kind's handle. It is flushed, and its last-flush time set to `now`, exactly when `flush` is set and `now - lastflush > 5`. The other kind, the other entries and the other handles are unchanged |
| LogStore.Write | logbot.py:58-74 | a successful write keeps the table invariant |
| LogStore.WriteErrors | logbot.py:58-61 | a write fails with `NoEntry` exactly when the channel has no entry. It fails with `ClosedFile` exactly when the handle is closed and no rotation replaces it |
| LogStore.WriteAppendsToToday | logbot.py:58-61 | after a write the entry's date is today. The line lands in today's file of its kind, after what that handle held (nothing, after a rotation). The other handle receives nothing |
| LogStore.WriteFlushThrottle | logbot.py:63-65 | the flush rule: flushed and stamped `now` exactly when `flush` holds and more than 5 seconds have passed since the last flush (0 after a rotation). Otherwise the last-flush time and the flushed prefix are unchanged |
| LogStore.WriteLeavesOthers | logbot.py:58-74 | a write changes no other channel's entry and no other handle. A rotating write closes the old message handle and leaves the old join handle as it was |
| LogStore.WriteKeepsOpen | logbot.py:58-74 | while every handle in the table is open, a write to a channel with an entry succeeds and keeps them all open |
| LogStore.FirstWriteAfterReopenFlushes | logbot.py:63-65 | the first flushing write after a reopen always flushes when `now > 5`. The handle then holds exactly that line, flushed |
| LogStore.RotationIsolation | logbot.py:54-61 | on a date change the write goes to a file whose name differs from the old day's, whatever the date strings are. The old message handle is closed with exactly what it held. The old join handle is dropped without an explicit close and is untouched |
| LogStore.ReopenAll | logbot.py:33-37 | reopening a list of channels one after the other keeps the invariant |
| LogStore.ReopenAllOpensEach | logbot.py:33-37 | after reopening a list, every channel in it has a fresh entry for today, and the table's keys are the old keys plus the list |
| LogStore.ReopenAllLeavesOthers | logbot.py:33-37 | reopening a list leaves the entry and both handles of every channel not in it unchanged |
| LogStore.CloseAll | logbot.py:117-119 | closing every entry's handles keeps the table and the invariant |
| LogStore.CloseAllClosesEverything | logbot.py:117-119 | after quitting, each handle in the table is closed with everything written to it flushed and nothing lost |
| LogStore.CloseAllLeavesDropped | logbot.py:117-119 | quitting does not touch a handle the table no longer holds, such as a join handle dropped by a rotation |
| LogStore.CloseAllIdempotent | logbot.py:113-119 | closing everything twice is the same as closing it once |
| Reconnect.Connect | logbot.py:76-81 | a connection attempt leaves the link up exactly when it succeeds. A failure is swallowed and nothing is scheduled |
| Reconnect.OnDisconnect | logbot.py:90-93 | a disconnect schedules one more check, so the bot stays supervised |
| Reconnect.ConnectedChecker | logbot.py:83-88 | a check that finds the link up changes nothing. One that finds it down schedules the next check and tries once. Either way the bot stays supervised |
| Reconnect.Fire | logbot.py:83-88 | running one scheduled check leaves the bot supervised. It consumes a scheduled check only when the link was already up. A check that finds the link down makes one attempt, so afterwards the link is up exactly when it was up or that attempt succeeded |
| Reconnect.Run | logbot.py:83-93 | the library runs scheduled checks while any is scheduled. A supervised bot stays supervised, and a connected bot makes no attempt. Nothing happens while no check is scheduled, and there are at most as many attempts as outcomes |
| Reconnect.RetriesWhileDown | logbot.py:83-93 | while every attempt fails, each scheduled check makes one attempt and the chain never ends |
| Reconnect.StopsOnceUp | logbot.py:83-88 | after the first successful attempt the next check schedules nothing, so exactly one more than the failures are made |
| Reconnect.StartAsWritten | main.py:27 | start-up as written: one attempt, no check scheduled |
| Reconnect.StartAsWrittenStalls | main.py:27 | if the first attempt fails, the bot is unsupervised and no check ever runs |
| Reconnect.Start | main.py:27 | corrected start-up through a check: supervised, and connected exactly when the attempt succeeds |
| Reconnect.StartRecovers | main.py:27 | with the corrected start-up, a bot whose server is down at first connects at the first successful attempt |
| Bot.Welcomed | logbot.py:33-34 | the configured names that pass `is_channel`, in configuration order. Every name in it is a channel name, and it is no longer than the configuration |
| Bot.WelcomedMembers | logbot.py:33-37 | the welcome handler opens exactly the configured names that are channel names |
| Bot.LogBot.constructor | logbot.py:11-27 | a new bot has the configured channels, an empty table, no handles, is disconnected, has nothing scheduled and has sent nothing |
| Bot.LogBot.Privmsg | logbot.py:29-30 | sends one message to the target |
| Bot.LogBot.Reopen | logbot.py:39-50 | updates the table in place to `LogStore.Reopen` of the old table and keeps the invariant |
| Bot.LogBot.CheckDate | logbot.py:54-56 | updates the table to `LogStore.CheckDate` of the old table |
| Bot.LogBot.Write | logbot.py:58-74 | on success the table becomes the result of `LogStore.Write`. On failure it reports the error and leaves the table unchanged |
| Bot.LogBot.Append | logbot.py:61-65 | appends and flushes in place as `LogStore.AppendLine` |
| Bot.LogBot.OnWelcome | logbot.py:32-37 | the loop joins and reopens each configured channel name in order. The table becomes `ReopenAll` of the welcomed channels, and one join request per welcomed channel is sent, in order |
| Bot.LogBot.JoinAndOpen | logbot.py:35-37 | one step of the welcome loop: after sending the join request and reopening the channel, the table is `ReopenAll` of the channels joined so far plus this one, and the commands sent grow by its join request |
| Bot.LogBot.OnPubmsg | logbot.py:101-105 | writes `{time} <{user}> {text}` to the message log. It replies `pajlada, PONG` exactly when the write succeeded, the user is `pajlada` and the text is `!logping` |
| Bot.LogBot.OnJoin | logbot.py:107-108 | writes `{time} JOIN {user}` to the join log |
| Bot.LogBot.OnPart | logbot.py:110-111 | writes `{time} PART {user}` to the join log, with no guard |
| Bot.LogBot.Quit | logbot.py:113-119 | sends `quit("bye")` exactly when connected, then leaves the table as `LogStore.CloseAll` of the old one |
| Bot.LogBot.CloseEach | logbot.py:117-119 | the loop closes both handles of every entry, in any order, and no other handle |
| Bot.LogBot.CloseHandle | logbot.py:118-119 | closing one more handle of a partly closed list gives the list with that handle added to the closed ones |
| Bot.LogBot.Connect | logbot.py:76-81 | one connection attempt, as `Reconnect.Connect` |
| Bot.LogBot.ConnectedChecker | logbot.py:83-88 | as `Reconnect.ConnectedChecker`, sending a connect request exactly when down |
| Bot.LogBot.OnDisconnect | logbot.py:90-93 | as `Reconnect.OnDisconnect` |
| Bot.LogBot.RunScheduledCheck | logbot.py:85-86 | the library runs one scheduled check, as `Reconnect.Fire` |
| Bot.LogBot.Start | main.py:27 | the corrected start-up, as `Reconnect.Start`. The bot is supervised afterwards |

## Left out

- The chat library (`irc.client`) is not part of this model. Connecting, joining, sending and quitting are recorded in `sent`, and the outcome of a connection attempt is a parameter. `is_channel` is a function parameter of `OnWelcome`. `is_connected` is the field `connected`. `execute_delayed` increments the count of scheduled checks `armed`. The reactor running a check is `RunScheduledCheck`.
- Time is an integer second count `now`, not a float, and the UTC date and time-of-day strings are parameters (`today`, `time`). `strftime`/`gmtime` are not modelled. `IsDate`/`IsTime` describe their output where a lemma needs it.
- One `today` and one `now` are used for the whole of a call. The source reads the clock several times and could see midnight pass inside one write. The last-flush stamp at logbot.py:65 is a second `time.time()` reading, later than the one compared at logbot.py:63; the model stamps the compared `now`.
- Where logbot.py:55 raises `KeyError` or logbot.py:61 raises `ValueError`, the model returns `Err` and the bot keeps handling events. In the source the exception leaves the handler. main.py:29-33 catches only `KeyboardInterrupt`, so an exception that reaches `bot.start()` ends the process without `quit`.
- Files are abstract handles: which file, open or not, the lines written, and the flushed prefix. Directory creation, OS buffering and I/O errors (an `open` or `write` that fails) are not modelled. Handles opened twice on the same name are separate handles. Their contents are not merged per file name.
- `cdata` is a class attribute in the source, shared by every `LogBot` instance. The model has one bot, whose table is a field.
- Start-up plumbing is not modelled: `argparse`/`irc.logging` set-up, config loading (main.py), `print` output, `sys.exit` and `KeyboardInterrupt`. Only the call at main.py:27 is modelled, as `Reconnect.StartAsWritten`.
- Object finalisation is not modelled. Under CPython, the dropped join handle is closed and flushed when logbot.py:50 drops its last reference. The model keeps that handle open and unflushed.
- Bot.LogBot.Connect: does not model a connect issued while already connected (the library drops the old connection first). In the source, connect is reached only from start-up and from a check that found the link down.
- The handlers' `{time}` argument is any string. The read-back lemmas assume a well-formed `HH:MM:SS` time and, for messages, a user name without `>`.

## Findings

| source | as written | input that shows it | evidently intended | confidence | as-written member | corrected member |
|---|---|---|---|---|---|---|
| main.py:27 | start-up calls `connect()` once. Its `ServerConnectionError` is swallowed (logbot.py:80-81) and no check is scheduled | server unreachable at start-up: `StartAsWritten(false)` leaves `Link(false, 0)`. No check runs, and the bot never retries whatever later outcomes the network offers | the first connection is supervised like a reconnect: start through `_connected_checker`, which schedules the next check before trying | not executed | Reconnect.StartAsWrittenStalls | Reconnect.StartRecovers |
