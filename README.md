# Shop controller core, modelled in Dafny

`shop.py` runs a test-bench controller on a Raspberry Pi: 32 named output
channels on two I/O expanders (bench power rails, USB VBUS and data switches,
local/remote selects, indicators), a rolling JSONL action log, a one-line OLED
ticker, and a browser terminal that runs a login shell on a pty per Socket.IO
connection and intercepts `log`/`logs` commands typed into it.

This project models the statable logic underneath that plumbing. Every event
handler is one atomic, single-threaded step.

- `pytext.dfy` (`PyText`): the Python `str` and `int` behaviour the handlers rely on:
  `strip`, `split`, `lower`, `isprintable`, `startswith`/`endswith`, `int()`, `str()`.
- `sanitize.dfy` (`Sanitize`): `_sanitize_cmd`, which removes CSI escape
  sequences, then stray ESC characters, then unprintable characters, then
  strips whitespace.
- `router.dfy` (`InputRouter`): the `term_in` handler's payload normalisation
  and its character loop over the per-sid line buffer. The loop is a left fold
  `FeedAll` of one step `Feed`, and the method `Route` runs it.
- `logtail.dfy` (`LogTail`): the per-record formatting and placeholders of
  `_log_tail_lines`, and the count parsing of `_emit_logs` and `api_log_tail`.
  It also covers the CRLF framing of the reply.
- `sessions.dfy` (`Sessions`): the class `TermServer`. It holds the
  `term_sessions` registry, the line buffers, the sessions' `alive` flags, the
  operating-system effects (signals, pty closes, writes, resizes) as a trace,
  and the emitted `term_out` messages. Its methods are `_kill_session`, the
  `term_open`, `disconnect`, `term_in` and `term_resize` handlers, and the
  reader loop's exit step. `_pty_resize` geometry defaulting is also here.
- `channels.dfy` (`Channels`): the class `Controller`. It holds the semantic
  `state` dict, the pin levels, every pin-write request, the missing-pin
  warnings and the change log. Its methods are `_compute_pin_level`,
  `_set_pin_level`, `set_channel`, `set_lr`, the USB and bench helpers and
  `_apply_boot_defaults`.
- `ticker.dfy` (`Ticker`): `_bench_state_summary`, and a reader that recovers
  the bench and USB state from the ticker text.
- `logfiles.dfy` (`LogFiles`): daily log file names, `_parse_date_from_filename`
  (with `strptime("%Y-%m-%d")`'s flexible field widths) and the selection
  made by `purge_old_logs`.

## Behaviour as written

Several behaviours of the code differ from what its comments suggest. The
model follows the code in each case:

- `_ANSI_RE` needs a letter as the final byte. So the bracketed-paste markers
  `ESC[200~`/`ESC[201~` are not removed: only their ESC goes. A pasted `logs`
  therefore sanitises to `[200~logs[201~`, is not intercepted, and is forwarded
  to the shell (`BracketedPasteSanitized`, `BracketedPasteForwarded`).
- `_pty_resize` replaces only a zero size with 80/24. A negative size or one
  above 65535 makes `struct.pack` raise, and the size is not applied
  (`PtyResize`).
- A sid's line buffer is never reset by `term_open`, disconnect or teardown.
- The interception test `startswith("logs") or startswith("log")` is a
  case-insensitive `log` prefix. It also holds for `logout` and `login`
  (`IsLogCommandIff`).
- The reader loop's exit pops the registry entry by sid without checking
  which session it holds (see Findings).

## Model

| member | source | states |
|---|---|---|
| PyText.SpaceIsOnlyPrintableWhitespace | shop.py:1284-1285 | the only character that is both whitespace for `strip` and printable for `isprintable` is the space, so the printable filter keeps spaces and `strip` can only trim those |
| PyText.Lower | shop.py:1339 | `lower()` keeps the length, maps each ASCII capital to the letter 32 code points above it, and leaves every other character unchanged |
| PyText.Strip | shop.py:1285 | the result of `strip()` neither starts nor ends with whitespace |
| PyText.StripInfix | shop.py:1285 | `strip()` returns a contiguous slice of its input and so only removes characters |
| PyText.StripRemovesOnlySpace | shop.py:1285 | everything `strip()` cut off, before or after the kept slice, is whitespace |
| PyText.StripIdentity | shop.py:1285 | a non-empty string with no whitespace at either end is returned unchanged |
| PyText.TakeWord | shop.py:1310 | the first word is the longest whitespace-free prefix |
| PyText.SplitWords | shop.py:1310 | `split()` yields only non-empty, whitespace-free words |
| PyText.SplitCons | shop.py:1310 | a word followed by whitespace or the end splits off as the first item |
| PyText.ParseIntToString | shop.py:1314 | `int(str(k)) == k` for every integer `k`, including negatives |
| PyText.ParseSignedToString | shop.py:1314 | the signed-digit parse recovers every integer from its decimal text |
| PyText.NatToStringValue | shop.py:1314 | the decimal digits of `n` have value `n` |
| PyText.StripIntToString | shop.py:1314 | a decimal integer has no surrounding whitespace, so `int()`'s strip keeps it whole |
| Sanitize.SanitizeCmd | shop.py:1281-1285 | the sanitised command holds no ESC and no unprintable character, has no whitespace at either end, and is a sub-multiset of the input |
| Sanitize.SanitizeIdempotent | shop.py:1281-1285 | sanitising a sanitised command changes nothing |
| Sanitize.SanitizeClean | shop.py:1281-1285 | on text without ESC or unprintable characters, sanitising is just `strip` |
| Sanitize.ParamRun | shop.py:1279 | the parameter run is the longest prefix of `[0-9;?]` characters |
| Sanitize.CsiLen | shop.py:1279 | a CSI match, when there is one, starts with ESC and is at least three characters long |
| Sanitize.CsiLenOf | shop.py:1279 | `ESC [ params c` matches exactly when the character `c` after the parameters is an ASCII letter, with length three plus the number of parameters |
| Sanitize.StripCsiDropsSequence | shop.py:1282 | a complete CSI sequence is removed entirely and scanning continues after it |
| Sanitize.StripCsiKeepsUnterminated | shop.py:1282 | an `ESC [ params c` whose `c` is not a letter (for example `~`) is kept verbatim by the CSI pass |
| Sanitize.StripCsiShrinks | shop.py:1282 | the CSI pass only removes characters |
| Sanitize.StripCsiNoEscPrefix | shop.py:1282 | text before the first ESC passes through the CSI pass unchanged |
| Sanitize.RemoveEscNoEsc | shop.py:1283 | after `replace("\x1b", "")` no ESC remains |
| Sanitize.RemoveEscCounts | shop.py:1283 | ESC removal keeps every other character with its count |
| Sanitize.RemoveEscIdentity | shop.py:1283 | ESC removal leaves text without ESC unchanged |
| Sanitize.RemoveEscConcat | shop.py:1283 | ESC removal distributes over concatenation |
| Sanitize.KeepPrintableKept | shop.py:1284 | the filter leaves only printable characters and spaces |
| Sanitize.KeepPrintableCounts | shop.py:1284 | the filter keeps every printable character and space with its count |
| Sanitize.KeepPrintableIdentity | shop.py:1284 | the filter leaves all-printable text unchanged |
| Sanitize.KeptHasNoEsc | shop.py:1284 | printable text holds no ESC |
| Sanitize.StripClean | shop.py:1285 | stripping clean text keeps it clean |
| Sanitize.BracketedPasteCsi | shop.py:1279-1282 | neither bracketed-paste marker is a CSI match, so the CSI pass keeps a pasted block whole |
| Sanitize.BracketedPasteEsc | shop.py:1283 | ESC removal turns a pasted block into `[200~` + text + `[201~` |
| Sanitize.BracketedPasteKept | shop.py:1284 | the marker tails are printable |
| Sanitize.BracketedPasteSanitized | shop.py:1279-1285 | a pasted block of printable text sanitises to `[200~` + text + `[201~`, with the markers' tails left in |
| InputRouter.Normalize | shop.py:1290-1302 | the handler goes on only with non-empty text; for a dict payload that happens exactly when one of `data`, `text`, `input` is non-empty, and the first non-empty of them in that order is used (`data` over `text` over `input`); no payload returns early; decoded bytes and any other value are used as they are unless empty |
| InputRouter.IsLogCommandIff | shop.py:1339-1342 | a command is intercepted exactly when its first three characters are `l`, `o`, `g` in either case |
| InputRouter.Route | shop.py:1320-1363 | the handler's loop returns the new buffer, the pty writes in order and the log-tail counts, exactly as the left fold of one step per character |
| InputRouter.WritesPerChar | shop.py:1320-1363 | the text yields exactly one write per character, the character itself unless that character is an intercepted Enter |
| InputRouter.InterceptedPrefix | shop.py:1333-1342 | whether the character at position `i` is intercepted depends only on the text up to it |
| InputRouter.BufferIsLine | shop.py:1322-1359 | after the loop the buffer holds the keys after the last Enter applied as edits to an empty line, or to the old buffer when there was no Enter; backspace on an empty buffer leaves it empty |
| InputRouter.LineAfterSnoc | shop.py:1322-1359 | one more key updates the reconstructed line: Enter empties it, backspace drops its last character if any, any other key is appended |
| InputRouter.LineAfterEnter | shop.py:1333-1336 | after an Enter the line is empty |
| InputRouter.LineAfterKeyAfterEnter | shop.py:1358-1359 | a key after the last Enter edits the line started by that Enter |
| InputRouter.LineAfterKeyNoEnter | shop.py:1358-1359 | without an Enter, keys edit the old buffer |
| InputRouter.LastEnter | shop.py:1333 | the position found is an Enter and no later character is |
| InputRouter.EditPlain | shop.py:1358-1359 | keys without Enter or backspace are appended to the line as typed |
| InputRouter.ForwardsText | shop.py:1320-1363 | when nothing is intercepted, the concatenated pty writes equal the input text |
| InputRouter.RequestsMatchKills | shop.py:1338-1348 | there is one log request per `\x15\r` written, and every requested count lies in [1, 500] |
| InputRouter.TypedLine | shop.py:1333-1348 | a typed line then Enter echoes each key, then writes `\x15\r` and requests the line's count when the sanitised line is a log command, or forwards the Enter when it is not; the buffer ends empty |
| InputRouter.PlainLineTyped | shop.py:1356-1363 | ordinary keys typed on an empty buffer are echoed one each and collect in the buffer, with no request |
| InputRouter.EnterAfterLine | shop.py:1333-1348 | the Enter ending a typed line empties the buffer and is replaced by `\x15\r` and a request for the line's count exactly when the sanitised line is a log command |
| InputRouter.ForwardedLine | shop.py:1350-1355 | a typed line that is not a log command reaches the pty whole, Enter included, and requests nothing |
| InputRouter.NoRequestsWithoutEnter | shop.py:1320-1363 | keys without an Enter never produce a log request, whatever the buffer held before |
| InputRouter.RequestsAreCounts | shop.py:1333-1348 | the log requests are, in order, one per intercepted Enter, each with the count read from the sanitised line that Enter ended |
| InputRouter.ConcatSingles | shop.py:1320-1363 | one-character writes concatenate back to the text |
| InputRouter.BracketedPastePlain | shop.py:1322-1333 | the paste markers hold no Enter and no backspace |
| InputRouter.BracketedPasteNotLogCommand | shop.py:1338-1342 | a bracketed-paste line never passes the `log` test |
| InputRouter.BracketedPasteForwarded | shop.py:1320-1363 | a pasted line then Enter is forwarded verbatim, markers included, and asks for no log tail |
| LogTail.Shown | shop.py:208-218 | a record line shows the timestamp first and the event second, then the optional fields |
| LogTail.FormatRecordJoinsShown | shop.py:208-218 | the line is the shown fields joined by two spaces: `ts`, `event`, then `bench` and `rail` when truthy, then the state |
| LogTail.FormatRecordState | shop.py:216-217 | unless the state is the empty string, the line ends with `ON` for a truthy state and `OFF` otherwise |
| LogTail.PyTail | shop.py:201 | `lines[-n:]` is a suffix: the last `min(n, len)` lines for positive `n`, all lines for `n == 0`, all but the first `-n` for negative `n` |
| LogTail.LogTailLines | shop.py:187-222 | the reply is never empty: a missing file gives exactly `[no logs for today]` and an empty tail exactly `[log file empty]` |
| LogTail.LogTailShape | shop.py:201-222 | for a positive count, line `i` of the reply is the formatted line `i` of the file's last `min(n, len)` lines, and an empty file gives the placeholder |
| LogTail.RenderTail | shop.py:201-222 | the formatting loop builds exactly the tail's formatted lines, or the placeholder |
| LogTail.LogCount | shop.py:1309-1316 | the `_emit_logs` count always lies in [1, 500] |
| LogTail.LogCountOf | shop.py:1310-1314 | `cmd N` asks for `N` clamped to [1, 500] |
| LogTail.LogCountDefault | shop.py:1311-1312 | a command without a second word asks for 50 lines |
| LogTail.SplitTwo | shop.py:1310 | two words with one space split into exactly those two words |
| LogTail.IntToStringWord | shop.py:1314 | a decimal integer is one word |
| LogTail.ApiLogTailCount | shop.py:1183-1187 | the `api_log_tail` count always lies in [1, 2000] |
| LogTail.ApiLogTailCountOf | shop.py:1183-1185 | `?n=N` asks for `N` clamped to [1, 2000] |
| LogTail.ApiLogTailCountDefault | shop.py:1183 | without `n` the count is 200 |
| LogTail.Frame | shop.py:1318 | the reply text starts and ends with CRLF |
| LogTail.FrameRoundTrip | shop.py:1318 | cutting the framed reply at CRLFs gives back the reply lines, when no line holds a CR |
| LogTail.SplitJoin | shop.py:1318 | cutting CRLF-joined lines at CRLFs gives back the lines |
| Sessions.PtyResize | shop.py:489-493 | a size is applied exactly when both values fit in 16 bits; zero becomes 80 columns or 24 rows, and the applied size is never zero |
| Sessions.TeardownShape | shop.py:502-530 | teardown acts on one session, sends SIGTERM (if at all) first, and ends by closing the master and then the slave end |
| Sessions.TeardownOrder | shop.py:525-530 | nothing but closes follows a close in a teardown |
| Sessions.LedgerTeardown | shop.py:495-530 | one teardown takes a session from no teardown effects to each end closed once, at most one SIGTERM and at most one SIGKILL or child kill |
| Sessions.LedgerKill | shop.py:495-530 | tearing down a live session keeps every session's effects within that ledger |
| Sessions.LedgerSpawn | shop.py:594 | a new live session starts with no teardown effects |
| Sessions.LedgerUse | shop.py:1327-1361 | writes and resizes on a live session do not disturb any ledger |
| Sessions.LedgerOther | shop.py:495-530 | effects on other sessions leave a session's ledger alone |
| Sessions.LedgerHarmless | shop.py:1327-1361 | writes and resizes leave a session's ledger alone |
| Sessions.AppendKeepsOrder | shop.py:525-530 | a teardown appended for a session not yet closed keeps closes last for every session |
| Sessions.KillAndPop | shop.py:1239-1242 | killing a session and popping its sid keeps the registry pointing at live sessions; every live shell stays registered exactly when the popped entry was that session's own, and when it belonged to another live session that session is left unreachable |
| Sessions.KillAndKeep | shop.py:559-561 | killing a session that is no longer registered, without popping, keeps both registry invariants |
| Sessions.RegisterNew | shop.py:1258-1260 | registering a new session under a free sid keeps both registry invariants |
| Sessions.PopBySidOrphans | shop.py:559-561 | a registry state in which popping by the stale session's sid leaves the live session unregistered |
| Sessions.TermServer.constructor | shop.py:481 | the server starts with no sessions, no buffers, no effects and no output |
| Sessions.TermServer.KillSession | shop.py:495-530 | the first kill of a live session clears `alive` and appends its teardown; a later kill appends nothing; `alive` never becomes true again |
| Sessions.TermServer.Spawn | shop.py:563-597 | a new live session with the next serial; its initial resize is applied only when the size packs |
| Sessions.TermServer.OnDisconnect | shop.py:1235-1242 | the sid's session, if any, is torn down and its entry removed; everything else stays |
| Sessions.TermServer.OnTermOpen | shop.py:1245-1262 | bad geometry raises before anything happens; otherwise the old session is torn down and removed, and, when the shell spawns, the new one is registered and `[connected]` is emitted |
| Sessions.TermServer.Attach | shop.py:1258-1262 | the new session is registered under the sid and `[connected]` is emitted |
| Sessions.TermServer.OnReaderExit | shop.py:559-561 | the reader's session is torn down and its sid popped, whichever session holds that entry |
| Sessions.TermServer.OnReaderExitChecked | shop.py:559-561 | the corrected exit pops the entry only when it is the reader's own session, so every live shell stays registered |
| Sessions.TermServer.OnTermIn | shop.py:1288-1363 | with text and a session, the buffer becomes the routed buffer, the routed writes go to the session's pty and one framed log reply is emitted per request; otherwise nothing changes |
| Sessions.TermServer.OnTermResize | shop.py:1366-1378 | the sid's pty is resized exactly when it has a session and the geometry parses and packs; nothing else changes |
| Sessions.StaleReaderExitOrphans | shop.py:559-561 | opening a terminal twice on one sid and then letting the first reader exit leaves a live shell with no registry entry |
| Sessions.StaleReaderExitChecked | shop.py:559-561 | the same events with the corrected exit leave the live shell registered |
| Channels.AllChannels | shop.py:301-357 | the `CHANNELS` table has 32 entries |
| Channels.TableIndex | shop.py:301-357 | every channel of the table sits at a row of the table |
| Channels.TableListed | shop.py:301-357 | every row of the table is a table channel |
| Channels.BenchRails | shop.py:360-365 | a bench has three distinct rails, all its own |
| Channels.BenchRailsAreChannels | shop.py:360-370 | the rails of benches 1 to 4 are table channels and rail channels |
| Channels.BenchNumber | shop.py:360-365 | a bench name is known exactly when it is one of `bench1` to `bench4`, and names its number |
| Channels.BenchNamed | shop.py:360-365 | each listed bench name maps to its own number |
| Channels.PinLevel | shop.py:603-614 | VBUS enables are active-high; every other channel (active-low rails, data gates, selects and relays) is driven low for ON |
| Channels.LevelRoundTrip | shop.py:603-614 | the pin level and the semantic state determine each other |
| Channels.ChangeEvents | shop.py:666-685 | a change is logged, once, exactly when the state changed on a rail or USB channel, with the new and previous state |
| Channels.AssignReads | shop.py:714-724 | after a run of `set_channel` calls a channel reads the requested state if it was in the run, and its old state otherwise |
| Channels.ChangesNone | shop.py:666 | setting channels to the state they already have logs nothing |
| Channels.ChangesAreChanges | shop.py:666-685 | a run logs at most one event per channel, each from the opposite state to the requested one |
| Channels.SetTwiceLogsNothing | shop.py:714-724 | repeating a bench power command logs nothing the second time |
| Channels.DrivesAppend | shop.py:717-718 | the pin writes of two runs are the writes of each, in order |
| Channels.DataChannels | shop.py:730-749 | a port's data path is one or two channels |
| Channels.DataPolicy | shop.py:730-749 | port 1 data drives `lr1` then `lr2`, port 2 drives `lr2` only, ports 3 and 4 drive their `!OE` gate, all low to enable |
| Channels.UsbOrder | shop.py:760-772 | enabling both writes data before VBUS, disabling both writes VBUS before data, mixed flags write data then VBUS |
| Channels.UsbStepsCommute | shop.py:766-769 | switching VBUS off first does not change the data step's state or log |
| Channels.AssignOne | shop.py:745-748 | one `set_channel` call updates exactly that channel |
| Channels.AssignTwo | shop.py:703-708 | the two `set_lr` calls of the port 1 policy update `lr1` and `lr2` |
| Channels.Controller.constructor | shop.py:462-466 | every table channel starts OFF; nothing is driven, warned or logged yet |
| Channels.Controller.SafeWarnMissing | shop.py:616-619 | a channel without a pin is warned about once, ever |
| Channels.Controller.SetPinLevel | shop.py:621-628 | the write succeeds exactly for a wired pin, which then outputs the level; a virtual channel is warned about instead |
| Channels.Controller.Apply | shop.py:658-662 | the channel's pin is driven to the level for the state, then the state is recorded |
| Channels.Controller.SetChannel | shop.py:655-685 | the pin is driven, the state recorded, and a change event logged only for a changed rail or USB channel; every wired pin keeps the level of its state |
| Channels.Controller.SetLr | shop.py:692-699 | ports 1 and 2 drive their select low for REMOTE and record it without logging, adding the select to the driven pins or to the warned channels as it has a pin or not; any other port raises and changes nothing |
| Channels.Controller.UsbSetData | shop.py:730-750 | ports 1 to 4 drive their data path by the port policy, and exactly its channels join the driven pins or the warned channels; any other port raises and changes nothing |
| Channels.Controller.UsbSetVbus | shop.py:752-758 | ports 1 to 4 switch `port<p>_vcc_en`, which alone joins the driven pins or the warned channels; any other port raises and changes nothing |
| Channels.Controller.UsbPortEnable | shop.py:760-772 | the data and VBUS writes happen in the order the flags fix, with the state and log the two steps give; exactly the port's data channels and VBUS enable join the driven pins or the warned channels |
| Channels.Controller.SetChannels | shop.py:714-724 | a loop of `set_channel` calls has the state, pin writes and change log of the whole run; the driven pins grow by exactly the listed channels with a pin, and the warned set by exactly those without one |
| Channels.Controller.BenchKillPower | shop.py:714-718 | a known bench has its three rails switched OFF, and only they join the driven pins or the warned channels; an unknown one raises `Unknown bench` and changes nothing |
| Channels.Controller.BenchEnablePower | shop.py:720-724 | a known bench has its three rails switched ON, and only they join the driven pins or the warned channels; an unknown one raises `Unknown bench` and changes nothing |
| Channels.Controller.ApplyBootDefaults | shop.py:925-955 | after boot every table channel is OFF and every other channel keeps its state, the driven pins and the warned channels grow by exactly the table's wired and virtual channels, the writes come in the table order followed by the USB and rail passes, and nothing is logged |
| Channels.Controller.DriveOff | shop.py:927-950 | a pass of boot writes turns exactly the listed channels OFF without logging, every other channel keeps its state, and exactly the listed channels join the driven pins or the warned channels |
| Channels.Controller.DriveTableOff | shop.py:926-936 | the loop over the table leaves every table channel OFF, driven or warned about, and touches no other channel |
| Channels.Controller.DriveOffAgain | shop.py:938-950 | rewriting OFF over table channels that already read OFF adds only pin writes: state, levels and the warned set are unchanged |
| Channels.Controller.SafetyPasses | shop.py:938-955 | the USB data, VBUS and rail-kill passes add their pin writes in that order and change nothing else |
| Channels.Controller.KillAllRails | shop.py:952-955 | killing the four benches' rails at boot writes each rail OFF, leaves the state, the pin levels and the warned set unchanged, and logs nothing |
| Channels.Controller.KillBench | shop.py:954-955 | killing one bench's rails when everything is OFF writes them OFF, leaves the state, the pin levels and the warned set unchanged, and logs nothing |
| Channels.AllChannelsCovered | shop.py:927-936 | the table pass leaves every table channel OFF, driven or warned about |
| Ticker.BenchPowerShows | shop.py:992-998 | after a bench power command the ticker shows that bench as requested and the other benches as before |
| Ticker.TickerRoundTrip | shop.py:987-1011 | the ticker text determines the four bench flags, the four VBUS bits and both data bits it was built from |
| Ticker.SummaryTokens | shop.py:1009-1011 | the ticker's words are the four bench fields, the bar and the USB fields |
| Ticker.ReadBenchField | shop.py:1009 | a bench field reads back as that bench's all-rails-ON flag |
| Ticker.ReadUsbTokens | shop.py:1010 | the USB fields read back as the VBUS bits and the port 3 and 4 data bits |
| Ticker.ReadTokens | shop.py:1009-1011 | well-formed bench and USB fields read back into the view they encode |
| Ticker.SplitHalves | shop.py:1011 | the two halves of the ticker split at the bar |
| Ticker.SplitUsb | shop.py:1010 | the USB half splits into its four words |
| Ticker.UsbWords | shop.py:1010 | each USB field is one word |
| Ticker.BenchFieldWord | shop.py:1009 | each bench field is one word |
| Ticker.SplitBar | shop.py:1011 | the bar separator between the halves splits as one word |
| LogFiles.BeforeOrder | shop.py:248 | the day order is a strict total order |
| LogFiles.Pad2 | shop.py:134 | two-digit zero padding |
| LogFiles.Pad4 | shop.py:134 | four-digit zero padding |
| LogFiles.IsoDate | shop.py:134 | `date.isoformat()` is ten characters |
| LogFiles.MonthAlternatives | shop.py:232 | `%m` matches a one- or two-digit month in 1 to 12 |
| LogFiles.DayAlternatives | shop.py:232 | `%d` matches a one- or two-digit day (or a space then a digit) in 1 to 31 |
| LogFiles.MatchMonthDay | shop.py:232 | a matched month and day are in range and fit in the text |
| LogFiles.ParseIsoDate | shop.py:232 | a parsed date is a valid proleptic Gregorian date from 8 to 10 characters |
| LogFiles.ParseDateFromFilename | shop.py:226-235 | a date is returned only for a name with the `bench_actions_` prefix and the `.jsonl` suffix, and it is valid |
| LogFiles.AffixesApart | shop.py:228-230 | a name with both affixes is at least as long as both together |
| LogFiles.ParseBetweenAffixes | shop.py:229-232 | a log file name parses as the date text between its affixes |
| LogFiles.IsoDateRoundTrip | shop.py:134 | `strptime` recovers every valid date from its ISO text |
| LogFiles.FileNameRoundTrip | shop.py:226-235 | every daily log file name parses back to its own date |
| LogFiles.Pad4Value | shop.py:232 | a padded year reads back as the year |
| LogFiles.MonthOfPad2 | shop.py:232 | a padded month reads back first as the month |
| LogFiles.DayOfPad2 | shop.py:232 | a padded day reads back first as the day |
| LogFiles.UnpaddedAccepted | shop.py:232 | every valid date with a one-digit month and day is accepted when written without leading zeros |
| LogFiles.SpacePaddedDayAccepted | shop.py:232 | every valid date with a one-digit day is accepted with a space in place of the day's leading zero |
| LogFiles.LeapDay | shop.py:232 | `YYYY-02-29` is accepted exactly when `YYYY` is a leap year |
| LogFiles.TrailingDataRejected | shop.py:232 | a written date followed by any further text is rejected |
| LogFiles.PurgeOldLogs | shop.py:237-259 | the loop removes exactly the expired names, in listing order, and returns their number; a listing failure removes nothing |
| LogFiles.ExpiredExactly | shop.py:244-256 | a name is removed exactly when it is listed, is a log file name whose date is strictly before the cutoff day, and its removal succeeds |
| LogFiles.ExpiredGrows | shop.py:243-250 | a later cutoff removes at least the same files |
| LogFiles.LogPurgedIffBefore | shop.py:248-250 | the daily log of day `d` is purged exactly when `d` is strictly before the cutoff day |

## Left out

- MQTT publishing (shop.py:636-642, 664, 699) and printed warnings are left out. They are foreign calls and console output. A warning is modelled only as the channel it names.
- I2C pin objects are left out (shop.py:621-631). A pin write is an entry in `requests`, plus the level in `levels` for a wired pin.
- Channels.Controller.SetPinLevel: a wired pin whose `pin.value` assignment raises is modelled as a successful write. Hardware failures are not modelled.
- Channel names arrive as a datatype. `set_channel` on a name outside the table is not modelled, because the HTTP layer that would pass one is not part of this model.
- `time.sleep` between the USB steps is left out, and so are `eventlet`, threads and locks. Every handler is one atomic step, so the races the locks guard against are not modelled.
- Sessions.TermServer: a `TermSession`'s `alive` flag is kept in the server's table, indexed by session serial. Aliasing of session objects is not modelled.
- PTY allocation, `Popen`, `setsid`, `TIOCSCTTY` and `fcntl` are left out (shop.py:485-487, 563-597). Whether the shell spawned is a parameter of `OnTermOpen`.
- The outcome of `getpgid`/`killpg`/`poll`/`kill` during teardown is the parameter `ProcEnv`. The 0.1 s grace sleep is left out.
- The reader loop's `select`/`read`/emit cycle is left out (shop.py:532-557). Only its exit step is modelled (shop.py:559-561).
- Shell output forwarded as `term_out` is not modelled. The only emits in the model are `[connected]` and log-tail replies.
- File I/O is left out. Today's log file is an `Option<seq<LogLine>>` of already-decoded JSON lines. The directory listing is an `Option<seq<string>>`, and the removable files are a set.
- JSON decoding is left out. A line is either a record of optional scalar fields or raw text. The `[log read error: …]` path (shop.py:223-224) is not modelled.
- A record field's value is null, a boolean, an integer or a string. Floats, arrays and objects as field values are not modelled, so neither is how `str()` renders them in a log line.
- Pty writes are recorded as the text requested, one entry per `os.write` (shop.py:1327-1361). Two things are not modelled. One is the per-character `encode("utf-8", errors="ignore")`, which writes nothing for a lone surrogate (a model character is never a surrogate). The other is an `os.write` that raises: the source swallows the error and goes on, and the model records the write as made.
- `datetime.now` is left out. The purge cutoff is given as a day, not computed as now minus the retention period.
- LogFiles.ParseIsoDate: `strptime`'s `\d` also matches non-ASCII decimal digits. The model accepts ASCII digits only, and years 0 and above 9999 are excluded by the date validity check.
- `bytes` payloads are given as decoded text: UTF-8 decoding is not modelled. A dict field that is not a string is not modelled either.
- PyText.Lower: only ASCII capitals are lowered. For the `log` prefix test this is exact, since no other character lowercases to `l`, `o` or `g`.
- PyText.IsPrintable: covers every control (Cc), format (Cf), private-use (Co) and separator (Z*) character of Unicode 15, but of the unassigned code points (Cn) only U+2065. All other unassigned code points, including the noncharacters such as U+FFFE, count as printable here, though Python does not print them.
- PyText.ParseInt: reads ASCII digits only. Python's `int()` also accepts every other Unicode decimal digit, such as the fullwidth `０`–`９` and the Arabic-Indic `٠`–`٩`, at their digit values. A count written that way in `log <n>` (shop.py:1314) or in `?n=` (shop.py:1185) is modelled as a parse failure, which gives the default count (50 or 200) instead of the written one.
- The OLED scrolling, the pressure sensor, bench service macros, bench-name persistence, `log_event` writing and the Flask routes other than `api_log_tail`'s count are not part of this model.

## Findings

| source | as written | input that shows it | evidently intended | confidence | as-written member | corrected member |
|---|---|---|---|---|---|---|
| shop.py:559-561 | the reader loop's exit pops `term_sessions[sess.sid]` whichever session that entry holds | `term_open` twice on sid `a`, then the first session's reader exits: the second, live shell loses its registry entry, so `disconnect` can no longer tear it down | pop the entry only when it still holds the exiting session | not executed | Sessions.TermServer.OnReaderExit (shown by Sessions.StaleReaderExitOrphans) | Sessions.TermServer.OnReaderExitChecked (shown by Sessions.StaleReaderExitChecked) |
