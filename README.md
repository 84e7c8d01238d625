# Wireless fingerprint attendance system — a verified model of its core

The system is a desktop server. Fingerprint scanners connect to it over TCP
and speak a line protocol. An operator types commands into a console. The
commands start and stop the server, list the connected scanners, push an
enrolment form or a disconnect/reboot to a scanner, initialise the database,
export attendance to CSV, and view or change the current event. The model
covers these parts:

- **The operator command router** (`CommandExecutor`), in `router.dfy` and
  `command_match.dfy`.
  - It matches commands by first match against a command table; the matcher
    is generic over the table.
  - It gates on the server being present and open, and on a minimum input
    length.
  - It resolves the target scanner by exact name.
  - It writes fixed sequences of protocol lines to that scanner's output.
  - It updates the event record, or answers from persistence.
- **The client registry and the device line protocol** (`ServerManager` and
  its inner `FSClient`), in `server.dfy` and `protocol.dfy`.
  - The registry is a class with a `seq` of sessions.
  - A session's loop is a pure function of the lines the device sends
    (`Protocol.Run`), and `FSClient`'s methods are proved against it.
- **The small validators and records**, each in its own file:
  - the command table and `CHARSET` (`const.dfy`);
  - the log-line format (`log.dfy`);
  - the export date check (`export_query.dfy`);
  - the enrolment and attendance records (`enrollment.dfy`, `attendance.dfy`);
  - the CSV file-name search and writer (`exporter.dfy`);
  - the login window's host and port checks and Enter rule (`login.dfy`);
  - the enrolment form's checks and Submit rule (`enroll_form.dfy`).

`text.dfy` holds decimal parsing and printing and `String.split` on one
character. The parsers follow Java's `Integer.parseInt` and
`Short.parseShort` on text whose digits are ASCII '0'–'9'; other Unicode
decimal digits are left out (see "## Left out").

Every regular expression is written as a hand-made recogniser of the
language the source's pattern denotes under `String.matches`. The model
assumes a JDK of version 19 or later, where `\w` and the word test inside
`\b` see only ASCII word characters; an earlier JDK's `\b` would also treat
other Unicode letters and digits as word characters. Even on those JDKs,
`\b` (`Pattern.Bound.check`) also counts a non-spacing mark (Unicode
category Mn) as a word character when it follows a letter or digit, possibly
through other marks. The recognisers use the ASCII `\b` alone. `Text.JavaBoundaryAt` states
the full rule, taking the two Unicode classes as parameters, and
`command_match.dfy` proves where the two differ (see "## Left out"). The
host pattern's `\b` is not affected: none of its atoms matches a mark, so
input holding one fails under either rule, and without a mark the two
rules agree (`Text.BoundaryAgrees`). Several patterns are narrower than their
comments, and lemmas record where:

- the year class `[1-9]{4}` refuses 2024;
- the port pattern refuses 49160 and 49200;
- the fingerprint pattern refuses 0 and 206.

Console output is a sequence of `Message(text, kind)` records, built by
`Log.Emit`. Sending the null that `log` returns for empty text emits
nothing (src/main/java/gui/MainWindow.java:340-344).

Where the revisions of the source disagree, the model follows the call sites:

- `checkNullText` is called from `execute` although it is private.
- `buildAttendanceCSV` returns the chosen file name.
- `initTables` answers a boolean.
- `LogTypes` gains `INVALID`, which the router logs with.
- `MainWindow.sendToConsole` takes a JavaFX `Text`, while `LogHelper.log`
  returns a `String`, yet every call site passes `log`'s result to it. The
  model takes the console to receive `log`'s text, and its null as nothing
  (the null check at src/main/java/gui/MainWindow.java:341).

Where the code's error handling and its behaviour differ, the model follows
the behaviour. The handlers show what the code means to do:

- the `StringIndexOutOfBoundsException` catch reports "Missing argument."
  (src/main/java/core/CommandExecutor.java:283-284);
- a date the pattern refuses is reported as "Invalid date format"
  (lines 259-262);
- `clients info` checks the server before it lists the clients (line 201).

Three inputs get past these handlers:

- **Export with short input.** An export command shorter than eight
  characters does not report "Missing argument.". `input.substring(7, 8)`
  (src/main/java/core/CommandExecutor.java:252) is outside the `try`, so the
  exception leaves `execute`; the model returns `failed`. Only mode "1" with
  nothing after it (exactly eight characters) reports "Missing argument.".
- **A date the pattern lets through but `Date.valueOf` refuses.** The
  date pattern (src/main/java/utility/TempExportQueryData.java:16) lets
  any one- or two-digit day through, so "1999-12-00" and "1999-12-32"
  pass it. `Date.valueOf` (line 18) then throws `IllegalArgumentException`
  for a day outside 1–31. Nothing catches it, so the export command leaves
  `execute` with the exception; the model returns `failed`, not an
  "Invalid date format" report or an export. A day up to 31 in a shorter
  month ("1999-2-31") is accepted.
- **`clients info` with no server.** It dereferences the server manager
  (line 199) before its null check (line 201). With no server it fails in the
  same way instead of reporting "Server is null".

## Model

| member | source | states |
|---|---|---|
| Log.TagRoundTrip | src/main/java/utility/LogTypes.java:7-24 | each log type's tag reads back as that type, so distinct types print distinct, non-empty, bracket-free tags |
| Log.Format | src/main/java/utility/LogHelper.java:19-31 | `log` answers null exactly for empty text; otherwise the line is as long as "[time][TAG]: text" |
| Log.ParseFormat | src/main/java/utility/LogHelper.java:22-28 | a formatted line reads back into its time, its type and the unchanged message after "]: " |
| Log.BracketLayout | src/main/java/utility/LogHelper.java:22-27 | where the brackets, the tag and the message fall in "[time][tag]: text" |
| Log.EmitShape | src/main/java/utility/LogHelper.java:19-31 | `Log.Emit`, the model of `sendToConsole(log(text, kind))`: empty text, for which `log` answers null, emits nothing; any other text emits exactly one message with that text and type |
| Log.EmitRendered | src/main/java/gui/MainWindow.java:340-344 | the console shows a line exactly when `log` answers one; each emitted message renders as `log`'s line, which reads back as its time, type and text |
| Log.DebugLog | src/main/java/utility/LogHelper.java:33-35 | `debugLog` formats with the DEBUG tag: null for empty text, otherwise a line that reads back as (time, DEBUG, text) |
| Const.CharsetLayout | src/main/java/utility/Const.java:15 | CHARSET is 62 characters: A–Z, then a–z, then 0–9 |
| Const.CharsetIndex | src/main/java/utility/Const.java:15 | every ASCII letter or digit has an index in CHARSET |
| Const.CharsetShape | src/main/java/utility/Const.java:15 | CHARSET has 62 pairwise distinct characters, and a character is in it exactly when it is an ASCII letter or digit |
| Const.CommandsShape | src/main/java/utility/Const.java:69-87 | the table is START, STOP, ENROLL with ids 1, 2, 3 and references "start server", "stop server", "enroll"; each reference is a prefix of its syntax |
| CommandMatch.CheckValidCommand | src/main/java/core/CommandExecutor.java:26-45 | the loop returns the id of the first entry whose reference matches at a word boundary, and no earlier entry matches |
| CommandMatch.FirstMatchSpec | src/main/java/core/CommandExecutor.java:26-45 | a non-zero answer is the id of a matching entry with no match before it; with non-zero ids, 0 comes back exactly when nothing matches |
| Text.BoundaryAgrees | src/main/java/core/CommandExecutor.java:35 | with no non-spacing mark on either side of a position, Java's `\b` there and the ASCII `\b` agree |
| Text.MarkContinuesWord | src/main/java/core/CommandExecutor.java:35 | a non-spacing mark right after an ASCII letter or digit continues the word for Java's `\b`, where the ASCII `\b` sees a boundary |
| CommandMatch.JavaReferenceMatchesIff | src/main/java/core/CommandExecutor.java:35 | for a reference that begins and ends with an ASCII letter or digit, Java's match and the model's agree except when a non-spacing mark follows the reference, where Java refuses and the model accepts |
| CommandMatch.JavaFirstMatchAgrees | src/main/java/core/CommandExecutor.java:26-45 | on input holding no non-spacing mark, the model's first-match search answers as Java's does, for any table whose references begin and end with ASCII letters or digits |
| CommandMatch.CommandsAlphanumericEnds | src/main/java/utility/Const.java:69-87 | every reference of the shipped table begins and ends with an ASCII letter |
| CommandMatch.CombiningMarkDiffers | src/main/java/core/CommandExecutor.java:26-45 | "enroll" followed by U+0301 selects enroll (3) in the model and nothing (0) under Java's `\b` |
| CommandMatch.NonWordStartMatchesNothing | src/main/java/core/CommandExecutor.java:35 | input that does not begin with a word character (whitespace-only input, for one) selects nothing, for any table |
| CommandMatch.FirstMatchUnique | src/main/java/core/CommandExecutor.java:26-45 | when every matching entry carries the same id, that id is the answer whatever the order; with no match the answer is 0 |
| CommandMatch.CommandsMatchAtMostOnce | src/main/java/utility/Const.java:69-87 | no two entries of the shipped table match the same input |
| CommandMatch.CommandsOrderIrrelevant | src/main/java/utility/Const.java:69-87 | any table with exactly the shipped entries answers as the shipped table does |
| CommandMatch.StartServerSelected | src/main/java/utility/Const.java:69-75 | "start server" selects id 1 |
| CommandMatch.StopServerSelected | src/main/java/utility/Const.java:76-81 | "stop server now" selects id 2: words after the reference are allowed |
| CommandMatch.EnrollSelected | src/main/java/utility/Const.java:82-87 | "enroll AbCd1234" selects id 3 |
| CommandMatch.CommandsReject | src/main/java/core/CommandExecutor.java:26-45 | "enrollment", " enroll x" and "clients info" select nothing |
| Router.ServerCheck | src/main/java/core/CommandExecutor.java:54-68 | the gate passes exactly when the server is non-null and open; otherwise it reports a null or a closed server |
| Router.SyntaxCheck | src/main/java/core/CommandExecutor.java:78-86 | the gate passes exactly when the input has at least the given length; otherwise it reports "Invalid syntax." |
| Router.FirstNamed | src/main/java/core/CommandExecutor.java:96-108 | the index of the first registered client with the given name, or -1 when no client has it |
| Router.FindClient | src/main/java/core/CommandExecutor.java:96-108 | the loop returns the first client with that exact name and reports it as found; when none has it, null (the NullPointerException) and no message |
| Router.Resolution | src/main/java/core/CommandExecutor.java:140-153 | a resolved client is registered and named by the input's suffix from the command's offset; with an open server and long enough input, no client means no registered client has that name |
| Router.GateReport | src/main/java/core/CommandExecutor.java:140-153 | the gate reports exactly one message, which is INFO exactly when a client was resolved, and then names it as found |
| Router.Target | src/main/java/core/CommandExecutor.java:140-153 | the server check, the length check and the lookup return the resolved client and the gate's report |
| Router.EnrollCommands | src/main/java/core/CommandExecutor.java:159-176 | enroll sends nine values in order: "enroll", the fingerprint id in decimal, first, middle, last, age, gender, phone, address |
| Router.EnrollLines | src/main/java/core/CommandExecutor.java:168-176 | each of the nine values goes out newline-terminated, in the same order |
| Router.SendEnrollment | src/main/java/core/CommandExecutor.java:168-176 | the client's output gains exactly the nine enrolment lines, and its phase and connected flag are unchanged |
| Router.ClientsInfo | src/main/java/core/CommandExecutor.java:197-214 | fails with no server; reports a closed server, or "No clients found." for an empty registry; otherwise one "\|#\| name \| address\|#\|" line per client, in registry order |
| Router.InitTablesMessage | src/main/java/core/CommandExecutor.java:235-243 | INFO when the tables were initialised, ERROR otherwise |
| Router.Export | src/main/java/core/CommandExecutor.java:245-292 | fails on input under eight characters and on a date that passes the pattern but that `Date.valueOf` refuses; mode "1" with no date reports "Missing argument.", a refused date "Invalid date format" without a query, a null answer "Data is null", otherwise queries with the stored date, writes the CSV and reports its name; modes 2–4 do nothing; other modes report "Invalid syntax." |
| Router.EventData.constructor | src/main/java/gui/MainWindow.java:73-75 | the event name and location start as "Unspecified" |
| Router.EventData.SetCurrentEventName | src/main/java/core/CommandExecutor.java:314 | sets the name and leaves the location |
| Router.EventData.SetCurrentEventLocation | src/main/java/core/CommandExecutor.java:315 | sets the location and leaves the name |
| Router.EventData.EventNew | src/main/java/core/CommandExecutor.java:306-322 | with four or more space-separated tokens, name and location become tokens 2 and 3 and "Event data updated." is reported; otherwise neither changes and "Missing arguments." is reported |
| Router.EventNewTokens | src/main/java/core/CommandExecutor.java:309-313 | "event new NAME LOCATION" splits into exactly those four tokens when name and location are non-empty and space-free |
| Router.ShippedTableIds | src/main/java/utility/Const.java:69-87 | with the shipped table, execute only ever dispatches ids 0–3 |
| Router.Deliver | src/main/java/core/CommandExecutor.java:168-232 | enroll sends the form's nine lines (none if not submitted); disconnect sends "disconnect" and clears the connected flag; reboot sends only "reboot" |
| Router.App.constructor | src/main/java/gui/MainWindow.java:73-75 | no server yet, and the event record is "Unspecified"/"Unspecified" |
| Router.App.StartServer | src/main/java/gui/MainWindow.java:279-304 | a successful bind installs a new server on that port, running and open, with an empty registry; a socket error or a bad address reports the error and keeps the previous server |
| Router.App.StopServer | src/main/java/gui/MainWindow.java:311-324 | with no server, "Server is null…" then "Error when closing server."; with a running one, "Closing server..." and the socket ends closed; otherwise "not running" then the closing error; the registry is untouched |
| Router.App.ServerCommand | src/main/java/core/CommandExecutor.java:129-136 | start server installs a fresh, running, open server with an empty registry on the login port exactly when the bind succeeds, and otherwise reports the socket or address error and keeps the server; stop server keeps the same server and its registry, reports per the null, running and not-running cases, and a running server ends stopped and closed |
| Router.App.ClientCommand | src/main/java/core/CommandExecutor.java:137-233 | reports the gate's message and, only for the resolved client, appends the command's lines and applies the disconnect; every other client is unchanged |
| Router.App.LocalCommand | src/main/java/core/CommandExecutor.java:197-322 | fails exactly for clients info with no server and for an export that is too short or whose date `Date.valueOf` refuses; clients info lists the registry; init tables reports its outcome; event see reports the current event; export reports, queries and writes as Router.Export does, and only export writes files; only event new changes the event, as EventData.EventNew states |
| Router.App.Execute | src/main/java/core/CommandExecutor.java:117-324 | empty input does nothing; otherwise the id is the table's first match; id 0 reports "Not a recognizable command"; it fails for clients info with no server and for an export that is too short or whose date `Date.valueOf` refuses; the gate report and lines sent for client commands, the server swap only on start server, and the event and file effects as above |
| Server.RemoveFirstAbsent | src/main/java/core/ServerManager.java:132-134 | removing a client that is not registered changes nothing |
| Server.RemoveFirstPresent | src/main/java/core/ServerManager.java:132-134 | removing a registered client cuts out its first occurrence and keeps the others in order |
| Server.RemoveFirstCount | src/main/java/core/ServerManager.java:132-134 | as a multiset, removal takes away one copy of the client |
| Server.RemoveFirstDistinct | src/main/java/core/ServerManager.java:132-134 | in a registry without duplicates, what remains is exactly the other clients, still without duplicates |
| Server.GenerateClientName | src/main/java/core/ServerManager.java:363-375 | the name has eight characters, each the CHARSET character at the given draw, so each an ASCII letter or digit |
| Server.NameDraws | src/main/java/core/ServerManager.java:363-375 | every eight-character alphanumeric name comes from exactly one sequence of draws |
| Server.ShutdownClosingIsSession | src/main/java/core/ServerManager.java:288-300 | an interrupted session with nothing to read warns, sends "disconnect" if still connected, and closes |
| Server.ServerManager.constructor | src/main/java/core/ServerManager.java:36-41 | a bound, open socket with an empty registry, not yet running |
| Server.ServerManager.Start | src/main/java/core/ServerManager.java:45-46 | run raises the running flag and changes nothing else |
| Server.ServerManager.AcceptStep | src/main/java/core/ServerManager.java:47-62 | an accepted connection appends exactly one fresh, connected client with an eight-character name; earlier entries are unchanged |
| Server.ServerManager.StopServer | src/main/java/core/ServerManager.java:89-108 | when not running it reports "Server is currently not running." and fails with no state change; otherwise it clears the running flag and the socket is closed |
| Server.ServerManager.RemoveClient | src/main/java/core/ServerManager.java:132-134 | the registry loses the first entry equal to the client and nothing else changes |
| Server.ServerManager.AcceptFails | src/main/java/core/ServerManager.java:64-76 | after the socket closes, every client is interrupted; each session in its loop's polling sends "disconnect" if connected, closes and leaves the registry in order; the sessions waiting in readLine stay registered and unchanged, and the shutdown is reported only when none is left (otherwise the server is still waiting) |
| Server.StalledIn | src/main/java/core/ServerManager.java:72-73 | the sessions left waiting are registered ones, in readLine, each once |
| Server.ServerManager.InterruptAll | src/main/java/core/ServerManager.java:65-70 | every registered client is interrupted, and nothing else about it changes |
| Server.ServerManager.DrainRegistry | src/main/java/core/ServerManager.java:72-73 | while the server waits, each interrupted session in its polling reports its forced closing and leaves, in registry order; the sessions in readLine stay, in order |
| Server.ServerManager.FinishNext | src/main/java/core/ServerManager.java:72-73 | the next session in its polling finishes first, then the wait goes on as DrainRegistry states |
| Server.ServerManager.SessionFinishes | src/main/java/core/ServerManager.java:288-300 | an interrupted session sends "disconnect" if connected, closes, and leaves the registry, whose other entries keep their order |
| Server.ReadLines | src/main/java/core/ServerManager.java:210-217 | n readLine calls return the next n lines (null past a closed end), or wait on an open stream that is short |
| Server.ReadCommand | src/main/java/core/ServerManager.java:197-278 | a ready line is echoed and, for enrollFinger and scanFinger, its payload is read; the outcome agrees with Protocol's step |
| Server.FSClient.constructor | src/main/java/core/ServerManager.java:153-157 | the client keeps the socket's address and a name generated from the draws |
| Server.FSClient.Start | src/main/java/core/ServerManager.java:183-190 | the thread marks itself connected and reports the connection |
| Server.FSClient.Disconnect | src/main/java/core/ServerManager.java:177-179 | clears the connected flag and nothing else |
| Server.FSClient.Interrupt | src/main/java/core/ServerManager.java:66-69 | raises the interrupt flag and nothing else |
| Server.FSClient.SendCommand | src/main/java/core/ServerManager.java:384-392 | the command and a newline go to the device; after the socket closes nothing is written and the send error is reported |
| Server.FSClient.ForceClose | src/main/java/core/ServerManager.java:288-295 | the forced-close warning, "disconnect" sent to the device, and the connected flag cleared |
| Server.FSClient.Poll | src/main/java/core/ServerManager.java:196-282 | a pass with no line ready agrees with Protocol.Run on no lines |
| Server.FSClient.Step | src/main/java/core/ServerManager.java:194-283 | a pass with a line ready consumes at least that line and agrees with Protocol.Run |
| Server.FSClient.Loop | src/main/java/core/ServerManager.java:194-283 | the loop's messages, stored enrolments, lines consumed and exit are Protocol.Run's; a disconnected client reads nothing |
| Server.FSClient.Finish | src/main/java/core/ServerManager.java:296-355 | closing reports input, output and socket closed, and the client leaves the registry |
| Server.FSClient.Serve | src/main/java/core/ServerManager.java:182-301 | a burst of the session equals Protocol.Session; every exit from the loop removes the client from the registry; a burst that blocks keeps the command it is reading |
| Server.FSClient.Suspend | src/main/java/core/ServerManager.java:208-217 | a loop that blocks waits in readLine holding the lines of an incomplete command |
| Server.FSClient.PassAfterDisconnect | src/main/java/core/ServerManager.java:194-300 | a pass that was already reading when disconnect() cleared the flag finishes its command, and then the loop exits and closeAll runs, or it waits again |
| Server.FSClient.Resume | src/main/java/core/ServerManager.java:194-300 | a session waiting in readLine, given more lines, goes on as Protocol.Continue: the loop if still connected, one last pass otherwise |
| Server.FSClient.ResumeLoop | src/main/java/core/ServerManager.java:194-300 | a connected waiting session goes on with the loop over its held lines and the new ones, without a second echo |
| Server.FSClient.ResumePass | src/main/java/core/ServerManager.java:194-300 | a waiting session that was disconnected meanwhile finishes its one pass and exits |
| Protocol.Width | src/main/java/core/ServerManager.java:202-278 | enrollFinger takes eight payload lines, scanFinger one, anything else none |
| Protocol.FrameWidth | src/main/java/core/ServerManager.java:202-278 | a well-formed frame is its command line and exactly `Width` of it payload lines; width 8 marks an enrolment and width 1 a scan |
| Protocol.OnePass | src/main/java/core/ServerManager.java:194-283 | one iteration either ends the loop having consumed no more than the ready lines, or goes on having consumed between one and all of them |
| Protocol.Run | src/main/java/core/ServerManager.java:194-283 | the loop never consumes more lines than are ready |
| Protocol.RunShape | src/main/java/core/ServerManager.java:194-295 | "disconnect" is sent back only on a forced close, which needs an interrupt; going idle means every ready line was read; nothing is stored while the database is down |
| Protocol.Session | src/main/java/core/ServerManager.java:182-300 | every exit from the loop ends with closeAll's four messages; a session that is not connected reads nothing |
| Protocol.DatabaseFailureIgnored | src/main/java/core/ServerManager.java:219-250 | a failing insert changes nothing in the session except that no record is stored |
| Protocol.FrameStep | src/main/java/core/ServerManager.java:202-278 | one device event is its echo and report, its record, and exactly its own lines |
| Protocol.RunFrames | src/main/java/core/ServerManager.java:194-283 | events without a disconnect are processed one after another, in order |
| Protocol.DisconnectEnds | src/main/java/core/ServerManager.java:194-208 | after "disconnect" the session ends and reads no further line |
| Protocol.EncodedFramesRead | src/main/java/core/ServerManager.java:197-278 | what the server reads back is exactly what the device wrote, event by event |
| Protocol.Pending | src/main/java/core/ServerManager.java:194-217 | the lines still held are a suffix of the input |
| Protocol.ResumeShape | src/main/java/core/ServerManager.java:197-217 | going on from a held command, the first pass echoes it and reads at least its lines |
| Protocol.BlockedPending | src/main/java/core/ServerManager.java:208-217 | a loop blocks only on an open stream, and then holds exactly one incomplete command |
| Protocol.RunResumes | src/main/java/core/ServerManager.java:194-283 | a loop that blocks and then goes on once more lines arrive does what one loop over all the lines does |
| Protocol.ContinueClosed | src/main/java/core/ServerManager.java:194-300 | going on from a held command is the closed burst over its lines and the new ones, less the repeated echo and lines |
| Protocol.SessionResumes | src/main/java/core/ServerManager.java:182-300 | a session that blocks and then goes on equals one session over all the lines, closeAll included |
| ExportQuery.DateTextParts | src/main/java/utility/TempExportQueryData.java:16 | a dashed date is accepted exactly when its year is four digits 1–9, its month 1–12 (optional leading 0 below 10), and its day one or two digits |
| ExportQuery.DashesOfDateText | src/main/java/utility/TempExportQueryData.java:16 | the only dashes of such a date are the two separators |
| ExportQuery.DateTextSplits | src/main/java/utility/TempExportQueryData.java:16 | an accepted date splits into a valid year, month and day |
| ExportQuery.ZeroDigitYearRefused | src/main/java/utility/TempExportQueryData.java:16 | "2024-01-05" is refused |
| ExportQuery.MonthOutOfRangeRefused | src/main/java/utility/TempExportQueryData.java:16 | months "0", "00" and "13" are refused |
| ExportQuery.OrdinaryDatesAccepted | src/main/java/utility/TempExportQueryData.java:16 | "1999-12-31" and "1111-1-1" pass |
| ExportQuery.TempExportQueryData.constructor | src/main/java/utility/TempExportQueryData.java:9-11 | no date is stored yet |
| ExportQuery.DateValueOf | src/main/java/utility/TempExportQueryData.java:18 | a converted date has a month 1–12 and a day 1–31; any other text throws |
| ExportQuery.MonthTextValue | src/main/java/utility/TempExportQueryData.java:16 | a month the pattern accepts is digits denoting 1–12 |
| ExportQuery.DateValueOfAccepted | src/main/java/utility/TempExportQueryData.java:16-18 | a date the pattern accepts converts to its year, month and day exactly when the day is 1–31, and throws otherwise |
| ExportQuery.DayZeroPastThePattern | src/main/java/utility/TempExportQueryData.java:16-18 | "1999-12-00" passes the pattern and then throws |
| ExportQuery.DayThirtyTwoPastThePattern | src/main/java/utility/TempExportQueryData.java:16-18 | "1999-12-32" passes the pattern and then throws |
| ExportQuery.FebruaryThirtyFirstPasses | src/main/java/utility/TempExportQueryData.java:16-18 | "1999-2-31" passes both and converts to year 1999, month 2, day 31 |
| ExportQuery.TempExportQueryData.BuildDate | src/main/java/utility/TempExportQueryData.java:14-21 | throws exactly for a date the pattern accepts and `Date.valueOf` refuses; otherwise answers the pattern check, stores the converted date when it passes, and leaves the stored date unchanged when it does not |
| Exporter.CandidateInjective | src/main/java/utility/Exporter.java:22-34 | different attempts try different names: base.csv, then base_(1).csv, base_(2).csv, … |
| Exporter.TriedSize | src/main/java/utility/Exporter.java:28-34 | after n attempts exactly n distinct names have been tried |
| Exporter.TakenBound | src/main/java/utility/Exporter.java:28-34 | the search ends: n + 1 taken names need n + 1 existing files |
| Exporter.ContentLines | src/main/java/utility/Exporter.java:39-44 | the file reads back as the data lines in order, and it is empty exactly when there are no lines |
| Exporter.Directory.CreateNewFile | src/main/java/utility/Exporter.java:26 | creates an empty file and answers true exactly when the name did not exist |
| Exporter.Directory.BuildAttendanceCsv | src/main/java/utility/Exporter.java:20-45 | the chosen name is the first candidate not taken before, every earlier candidate was taken, and the file now holds the written lines |
| Exporter.WriteLines | src/main/java/utility/Exporter.java:39-44 | the writer produces a line break and then the line, for each line in order |
| Enrollment.FullName | src/main/java/utility/TempEnrollmentData.java:51-56 | the full name is the three parts with a single space between each |
| Enrollment.FullNameParts | src/main/java/utility/TempEnrollmentData.java:51-56 | the three parts read back from the full name when they are non-empty and space-free |
| Enrollment.TempEnrollmentData.constructor | src/main/java/utility/TempEnrollmentData.java:19-49 | every field starts unset |
| Enrollment.TempEnrollmentData.BuildEnrolleeName | src/main/java/utility/TempEnrollmentData.java:51-56 | stores the three parts and their full name, and nothing else changes |
| Enrollment.TempEnrollmentData.BuildEnrolleeInfo | src/main/java/utility/TempEnrollmentData.java:58-63 | succeeds exactly when the age parses as a short; then it stores the age, gender, phone and address; otherwise no field changes |
| Enrollment.TempEnrollmentData.SetFingerprintId | src/main/java/utility/TempEnrollmentData.java:65-67 | stores the parsed int; unparsable text fails and keeps the previous id |
| Enrollment.TempEnrollmentData.GetFingerprintId | src/main/java/utility/TempEnrollmentData.java:23 | fails before any id was stored, and otherwise returns the stored id |
| Attendance.TruncatedToSeconds | src/main/java/utility/TempAttendanceData.java:52 | the result has no sub-second part and is the last whole second at or before the time |
| Attendance.TruncateIdempotent | src/main/java/utility/TempAttendanceData.java:52 | truncating twice is truncating once; a whole-second time is unchanged |
| Attendance.TempAttendanceData.constructor | src/main/java/utility/TempAttendanceData.java:21-43 | every field starts unset |
| Attendance.TempAttendanceData.SetFirstName | src/main/java/utility/TempAttendanceData.java:45-47 | the first name is stored and nothing else changes |
| Attendance.TempAttendanceData.BuildAttendanceData | src/main/java/utility/TempAttendanceData.java:49-55 | succeeds exactly when the id parses; then it stores the id, today's date, the time truncated to seconds and the event verbatim; otherwise nothing changes; the first name is never touched |
| Login.OctetAltIsOctet | src/main/java/gui/LoginWindow.java:79-81 | one octet of the host pattern is exactly a decimal 0–255 without leading zeros |
| Login.HostRepsOnlyDotted | src/main/java/gui/LoginWindow.java:79-81 | the repeated octet group accepts only dot-separated octets |
| Login.DottedHostReps | src/main/java/gui/LoginWindow.java:79-81 | the repeated octet group accepts every dot-separated run of octets |
| Login.HostIsDottedQuad | src/main/java/gui/LoginWindow.java:77-83 | the host is valid exactly when it is four dot-separated octets 0–255 |
| Login.DefaultHostAccepted | src/main/java/gui/LoginWindow.java:73 | the default host "0.0.0.0" passes |
| Login.TrailingDotRejected | src/main/java/gui/LoginWindow.java:79-81 | "1.2.3.4." is refused |
| Login.LeadingZeroRejected | src/main/java/gui/LoginWindow.java:79-81 | "10.0.0.01" is refused |
| Login.OctetOver255Rejected | src/main/java/gui/LoginWindow.java:79-81 | "256.1.1.1" is refused |
| Login.PortTextRange | src/main/java/gui/LoginWindow.java:99-110 | every accepted port text is a decimal number in 49152..65535, and parseInt reads that number |
| Login.PortHighRangeAccepted | src/main/java/gui/LoginWindow.java:101-108 | every port from 50000 to 65535 passes |
| Login.PortExamples | src/main/java/gui/LoginWindow.java:94-108 | 62609, 49152 and 65535 pass; 49160, 49200 and 65536 are refused |
| Login.LoginWindow.constructor | src/main/java/gui/LoginWindow.java:26-27 | the default texts of lines 73 and 94 are in the fields, both flags start true, and Enter is enabled |
| Login.LoginWindow.ChangeButtonState | src/main/java/gui/LoginWindow.java:157-162 | Enter is enabled exactly when both flags hold |
| Login.LoginWindow.EditHost | src/main/java/gui/LoginWindow.java:77-83 | the host flag becomes the host check of the new text, and the button follows |
| Login.LoginWindow.EditPort | src/main/java/gui/LoginWindow.java:99-110 | the port flag becomes the port check of the new text, and the button follows |
| Login.LoginWindow.PressEnter | src/main/java/gui/LoginWindow.java:120-126 | stores the host text and the parsed port, which lies in 49152..65535; clears the exit flag; closes the window |
| Login.LoginWindow.RequestClose | src/main/java/gui/LoginWindow.java:55-57 | a close request sets the exit flag, and the window closes, because the handler does not consume the event; nothing else changes |
| EnrollForm.AgeTextValue | src/main/java/gui/EnrollWindow.java:105-111 | every accepted age is a number 1–99 written without a leading zero |
| EnrollForm.AgeValueAccepted | src/main/java/gui/EnrollWindow.java:105-111 | every number 1–99 in plain decimal passes |
| EnrollForm.PhoneForms | src/main/java/gui/EnrollWindow.java:124-131 | "09" or "+639" followed by text is accepted exactly when that text is nine digits |
| EnrollForm.FingerprintTextValue | src/main/java/gui/EnrollWindow.java:139-151 | an accepted id text is the plain decimal of a number 1–255, and parseInt reads it |
| EnrollForm.FingerprintValues | src/main/java/gui/EnrollWindow.java:142-149 | the ids whose decimal passes are 1–199, and 200–255 only when the last digit is at most 5 |
| EnrollForm.FingerprintBound | src/main/java/gui/EnrollWindow.java:142-149 | up to three digits never denote more than 999 |
| EnrollForm.FingerprintExamples | src/main/java/gui/EnrollWindow.java:142-149 | 0, 206 and 256 are refused; 1, 199 and 255 pass |
| EnrollForm.EnrollWindow.constructor | src/main/java/gui/EnrollWindow.java:67-69 | empty fields, the placeholder gender, every flag false, Submit disabled (line 158), not submitted |
| EnrollForm.EnrollWindow.UpdateButtonState | src/main/java/gui/EnrollWindow.java:237-242 | Submit is enabled exactly when all four flags hold |
| EnrollForm.EnrollWindow.EditPlainFields | src/main/java/gui/EnrollWindow.java:101-103 | the name fields, and the address field of line 132, take the text with no check |
| EnrollForm.EnrollWindow.EditAge | src/main/java/gui/EnrollWindow.java:105-111 | the age flag becomes the age check of the new text |
| EnrollForm.EnrollWindow.EditPhone | src/main/java/gui/EnrollWindow.java:124-131 | the phone flag becomes the phone check of the new text |
| EnrollForm.EnrollWindow.SelectGender | src/main/java/gui/EnrollWindow.java:112-123 | the gender flag holds exactly when the choice is not "Select an option..." |
| EnrollForm.EnrollWindow.EditFingerprint | src/main/java/gui/EnrollWindow.java:139-155 | the id is valid exactly when its text passes the 1–255 pattern and the id is not already stored |
| EnrollForm.EnrollWindow.SubmitValues | src/main/java/gui/EnrollWindow.java:221-234 | copies every field and the parsed id, which lies in 1–255, then marks the form submitted and closes it |

## Left out

- **Threads, blocking and polling.** The accept loop, the client threads and
  the busy-wait for an empty registry (src/main/java/core/ServerManager.java:73)
  run one after another in the model.
  - An interrupt is observed at the end of a loop pass, not while a
    `readLine` is blocked in the middle of a payload.
  - A burst of a session ends as `Idle` where the real loop would keep
    polling an empty stream.
  - A session blocked in `readLine` holds its command (`pending`) and goes
    on only when `FSClient.Resume` is called with the lines that arrive.
  - The shutdown's spin on an empty registry is the `waiting` answer of
    `AcceptFails`. The spin going on until the stalled sessions finish is
    not modelled.
- **Sockets and streams.** They are left out. The lines a device sends are an
  input; the lines written to it are the client's `outbox`. Whether
  `ServerSocket.bind` succeeds for the login window's host and port is an
  input (`BindResult`).
- **Randomness.** `generateClientName`'s random draws are an input.
- **JDBC and persistence.** Their answers are inputs:
  - whether the insert succeeds (`dbUp`);
  - the ids already stored (`EditFingerprint`);
  - the result of `initTables`;
  - the attendance query.

  The text of the INSERT statement is not modelled. The statement is built
  from the unquoted values (src/main/java/core/ServerManager.java:224-233),
  so any text value makes it fail. The `SQLException` is swallowed and
  "Successfully enrolled" is still reported. `dbUp = true` therefore stands
  for a device that sends values already quoted as SQL literals.
- **The JavaFX windows.** The layout is left out; the listeners and buttons
  are methods on a class.
  - The enrolment form that `getEnrollWindow` opens for `enroll` is an input:
    its values when it was submitted, nothing otherwise.
  - The start/stop button enabling at
    src/main/java/gui/MainWindow.java:302-303 and 322-323 is not modelled.
- **Console and clock.** `sendToConsole`, `debugLog`'s print and the `debugLog`
  calls at the head of each case are left out. The clock
  (`getTime`, `LocalDate.now`, `LocalTime.now`) is an input.
- **Library conversions.** `java.sql.Date.valueOf` is modelled as
  `ExportQuery.DateValueOf`: its dash, length and range checks. A valid
  conversion keeps the year, month and day as written; the lenient
  normalisation of a day past the month's end ("1999-2-31" denotes 3 March)
  is not modelled. `Time.valueOf` is left out.
- **Getters.** The getters of `Const.Commands`, `TempEnrollmentData`,
  `TempAttendanceData`, `ServerManager` and `FSClient` are reads of the
  model's fields. `getClients` is the `fsclients` field.
- **Line separator.** `BufferedWriter.newLine` writes
  `System.lineSeparator()`. `Exporter.Content` writes "\n", the separator on
  Unix-like systems; "\r\n" on Windows is not modelled.
- **Unicode text.** Dafny strings index Unicode scalar values, and the
  model recognises ASCII digits only. This leaves out two behaviours of Java.
  - **Other decimal digits.** `Integer.parseInt` and `Short.parseShort` read
    any Unicode decimal digit through `Character.digit`, so "١٢" parses as
    12. `Text.ParseInt` and `Text.ParseShort` accept only '0'–'9'. So
    `Enrollment.TempEnrollmentData.SetFingerprintId`,
    `Enrollment.TempEnrollmentData.BuildEnrolleeInfo` and
    `Attendance.TempAttendanceData.BuildAttendanceData` fail on such text,
    where the source succeeds. The patterns that guard the other parses
    already admit only ASCII digits.
  - **Offsets.** Java's `length` and `substring` count UTF-16 code units,
    and a character outside the Basic Multilingual Plane takes two. For
    such text the offsets of `Router.SyntaxCheck`, `Router.Resolution`
    (`input[7..]` and the like) and `Router.Export` (`input[7..8]`,
    `input[9..]`) differ from the source's. For example, "enroll😀AbCd1234"
    selects enroll in both. But `substring(7)` starts at the emoji's low
    surrogate and finds no client, while the model's suffix is "AbCd1234".
- CommandMatch.CheckValidCommand: combining marks (Unicode text, continued).
  The model's `\b` is ASCII only. Java's `\b` counts a combining mark
  (category Mn) after a letter or digit as part of the word. So Java refuses
  "enroll\u0301" (0) while the model selects enroll (3).
  `CommandMatch.FirstMatch` and `Router.App.Execute` differ the same way.
  `CommandMatch.CombiningMarkDiffers` proves this case.
  `CommandMatch.JavaFirstMatchAgrees` proves that the two agree on every
  input holding no such mark.
- **File errors.** An `IOException` while exporting
  (src/main/java/core/CommandExecutor.java:286-288) is left out; file
  creation and writing always succeed in the model.
- **Router.App.Execute: per-case effects stated elsewhere.** For start server,
  stop server, clients info, export and event new, the messages and effects
  are stated on `Router.App.StartServer`, `Router.App.StopServer`,
  `Router.ClientsInfo`, `Router.Export` and `Router.EventData.EventNew`.
  `Execute`'s own contract states which case runs, and the failure and
  "nothing else changes" conditions.
- **Protocol.Run and Protocol.OnePass: bounds only.** Their own contracts
  only bound the lines consumed. What the loop does is stated in
  `Protocol.RunShape`, `Protocol.FrameStep`, `Protocol.RunFrames`,
  `Protocol.DisconnectEnds`, `Protocol.DatabaseFailureIgnored`, and the
  `FSClient` methods proved equal to `Run`.
- **Superseded revisions.** `src/main/java/server/*`, `DatabaseManager`,
  `Attendance.java`, `GuiConstants`, `Launcher` and the size and string enums
  of `Const` are not part of this model.
