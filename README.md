# MIDI session logger: a verified model of its session logic

The system records the events of MIDI keyboards into an SQLite table
(`midi_log`). It cuts that history into playing *sessions* wherever the
player paused for a minute or more. Each session is rebuilt into a MIDI track
with millisecond delta times. A Telegram bot lists the sessions of a period,
sends them, plays a stored file on a chosen output device and plots the notes
of a session.

This project models the logic that turns the fetched rows into sessions, and
what the bot computes from them:

- `DataEngine` (data_engine.dfy) models `MidiLog.get_midi_logs` after its
  query, and `get_session_by_id`:
  - the one-minute segmentation scan;
  - the rebuilt track with truncated millisecond deltas;
  - the `note_on` count;
  - the file name and the formatted date and time.
- `Bot` (bot.py helpers):
  - `format_notes_count`: the Russian plural and the `{:,}` grouping with
    spaces;
  - `safe_filename`;
  - the period → days mapping of the inline buttons;
  - the device-number check of `/play` against the numbering of `/devices`;
  - the running-time accumulation of `/notes`.
- `BotListing` and `BotSend` model the listing `send_midi_files` builds:
  - sessions grouped by date in a dict that keeps insertion order;
  - the sessions of each date sorted by time;
  - dates sorted newest first through a `strptime` key;
  - the numbered lines, the newline join and the total of the note counts.
- `MidiExport` models the counting loop of the standalone script
  midi_export.py.
- `Text` supplies Python's `str(int)`, the zero-padded `strftime` fields and
  `str` comparison.
- `Wrappers` supplies `Option`.

**How the model is built.** Loops of the source are methods with `for` loops.
Each is proved equal to a recursive specification function, and the
properties are lemmas about those functions. Python dicts that are only
filled and then read are sequences:

- the `sessions` dict with keys 0..n is a `seq<Group>`;
- the insertion-ordered `date_sessions` is a `seq<DateGroup>`.

`list.sort` and `sorted` are library calls. They are modelled as stable
insertion sorts written as functions:

- `SortByTime` skips while `<=` holds, so equal times keep their order;
- `SortByDateDesc` decorates each group with its key once, the way
  `sorted(key=...)` does.

Timestamps carry both integer microseconds and calendar fields, tied
together by `ValidTimestamp`. Differences are taken on the microseconds;
`strftime` reads the fields.

**Behaviour of the code worth noting:**

- the note count of `get_midi_logs` counts every `note_on`, whatever its
  velocity. The plot of `/notes` keeps only positive velocities, and
  `Bot.PlottedNotes` relates the two counts;
- `get_midi_logs` returns sessions in session-id order, oldest first;
- without a device filter, the rows of all devices are segmented as one
  stream;
- deltas are the elapsed milliseconds truncated toward zero by `int()`;
- midi_export.py tests the first row against the start time of the script,
  so it never counts the first session of a history that lies in the past.
  `MidiExport.OpenersSegment` states by how much its count differs from
  `get_midi_logs`.

## Model

| member | source | states |
|---|---|---|
| DataEngine.GroupSessions | data_engine.py:120-135 | the scan over the fetched rows builds exactly the dict of sessions `Segment` defines |
| DataEngine.SegmentIsSessionSplit | data_engine.py:121-135 | concatenating the sessions gives back the rows in order; each session starts at its first row; rows inside a session are less than a minute apart; consecutive sessions are a minute or more apart |
| DataEngine.SessionSplitUnique | data_engine.py:121-135 | any split of the rows with those properties is the segmentation, so the session rule determines the sessions |
| DataEngine.SegmentCount | data_engine.py:117-135 | there are no sessions exactly when there are no rows, and never more sessions than rows |
| DataEngine.SegmentStartIsRow | data_engine.py:129-134 | every session is non-empty, and its start time is the timestamp of its first row, which is one of the fetched rows |
| DataEngine.SegmentStartsIncrease | data_engine.py:125-135 | on rows in timestamp order, session start times strictly increase with the session id, and none is after the last row |
| DataEngine.SegmentGroupsOrdered | data_engine.py:125-134 | on rows in timestamp order, each session's messages are in timestamp order |
| DataEngine.TruncDiv | data_engine.py:148 | `int()` of a quotient truncates toward zero: the remainder lies in [0, d) for a non-negative dividend and in (-d, 0] for a negative one |
| DataEngine.Reconstruct | data_engine.py:139-175 | the loop over one session's messages builds the track, the note count and the name, date and time of `MakeArtifact` |
| DataEngine.RetimedAt | data_engine.py:144-152 | message i of the track is stored message i with `time` set to the truncated milliseconds since message i-1, or since the start time for the first |
| DataEngine.TrackDeltas | data_engine.py:144-152 | the track has one message per row, and each differs from the stored message only in `time`; the first delta is 0 and later deltas are the truncated milliseconds since the previous message; on ordered input no delta is negative |
| DataEngine.TrackElapsed | data_engine.py:144-152 | summing the first k+1 deltas gives the elapsed milliseconds since the start, at most k milliseconds short because of truncation |
| DataEngine.CountNoteOnAppend | data_engine.py:154-156 | the `note_on` count of two consecutive runs of messages is the sum of their counts |
| DataEngine.CountNoteOnBounds | data_engine.py:154-156 | the note count is at most the number of messages, and equals it exactly when every message is a `note_on` |
| DataEngine.FormatDateFields | data_engine.py:166 | the date is `dd.mm.yyyy`: ten characters with dots at 2 and 5, whose digit fields read back as the day, month and year |
| DataEngine.FormatTimeFields | data_engine.py:167 | the time is `HH:MM`: five characters with a colon at 2, whose fields read back as the hour and minute |
| DataEngine.StampTextLength | data_engine.py:165 | the `%Y-%m-%d_%H-%M` stamp of a valid date has sixteen characters |
| DataEngine.SessionNamesDistinct | data_engine.py:163-165 | the names of two sessions with different ids differ, with or without a device tag |
| DataEngine.ArtifactsAt | data_engine.py:139-175 | entry k of the result is session k rebuilt under id k |
| DataEngine.MidiLogsDeltasNonNegative | data_engine.py:144-152 | on rows in timestamp order, no message of any rebuilt track has a negative delta time |
| DataEngine.GetMidiLogs | data_engine.py:117-177 | for rows in the query's timestamp order: no rows give an empty list; otherwise there is one entry per session, and the list is `MidiLogs` of the rows |
| DataEngine.GetSessionById | data_engine.py:298-301 | for rows in timestamp order, the result is none exactly when the id is negative or not below the number of sessions; otherwise it is that entry of the all-time result for the same device filter |
| Text.ParseNatToString | bot.py:121 | reading `str(n)` back as a decimal gives n |
| Text.NatToStringInjective | data_engine.py:165 | different numbers have different decimal texts |
| Text.PadRoundTrip | data_engine.py:165-167 | a zero-padded `strftime` field is all digits and reads back as the padded number |
| Text.PadFits | data_engine.py:165-167 | a number below 10^w, padded to w digits, has exactly w characters |
| Text.ParseDecimalInjective | bot.py:156 | two digit strings of the same length with the same value are the same string |
| Text.StrLeTotal | bot.py:149 | any two strings are comparable under Python's `<=` |
| Text.StrLeTransitive | bot.py:149 | Python's `<=` on strings is transitive |
| Bot.PluralWordRule | bot.py:108-118 | the word is "нота" exactly for numbers ending in 1 but not 11; "ноты" exactly for endings 2-4 outside 12-14; "нот" otherwise |
| Bot.ReplaceGrouped | bot.py:121 | grouping the digits with commas and then replacing commas by spaces is the same as grouping with spaces |
| Bot.GroupedUngroups | bot.py:121 | removing the separators from grouped digits gives back the digits |
| Bot.GroupedLength | bot.py:121 | grouping adds one separator per full group of three after the first, and the length is never a multiple of four |
| Bot.GroupedSeparators | bot.py:121 | in grouped digits a separator stands exactly at the positions a multiple of four from the end, and every other character is a digit |
| Bot.FormatNumberGrouped | bot.py:121 | the number text is the sign followed by the digits of the absolute value grouped with spaces |
| Bot.FormatNumberUngroups | bot.py:121 | removing the spaces from the number text gives `str(n)` |
| Bot.FormatNumberShape | bot.py:121 | the number text is the sign of n and then the digits of the absolute value of n with a space exactly at every fourth position from the end and digits elsewhere; removing the spaces gives `str(n)` |
| Bot.KeepCharsEmbedding | bot.py:201 | the kept characters are the input with some characters removed, in their original order |
| Bot.KeepCharsAllKept | bot.py:201 | every kept character is alphanumeric or one of the four allowed characters |
| Bot.KeepCharsIdentity | bot.py:201 | a string of allowed characters is kept whole |
| Bot.RStripPrefix | bot.py:201 | `rstrip` returns a prefix of its input |
| Bot.StripEnds | bot.py:201 | the stripped result is empty or does not end in whitespace |
| Bot.SafeFilenameShape | bot.py:198-201 | the sanitised name uses only allowed characters, does not end in whitespace, and is an in-order selection of characters of the input |
| Bot.SafeFilenameIdempotent | bot.py:198-201 | sanitising a sanitised name changes nothing |
| Bot.PeriodDays | bot.py:89-93 | "all" gives 0 days, "week" gives 7, and every other period gives 1 |
| Bot.CallbackPeriod | bot.py:88 | for callback data "period_" + p + rest, where p has no '_' and rest is empty or starts with '_', the period read is p |
| Bot.ButtonDay | bot.py:88-93 | the days chosen for the button "period_" + p are the days of period p |
| Bot.ButtonDays | bot.py:59-61 | the three keyboard buttons ask for 1, 7 and 0 days |
| Bot.ChooseDevice | bot.py:266-274 | no devices is reported as such; a number from 1 to the device count plays on that device (1-based); any other number is refused with the device count |
| Bot.DeviceNumbering | bot.py:239-241 | /devices shows device i under number i+1, and /play with that number plays on device i |
| Bot.Visualize | bot.py:345-354 | the loop over the tracks collects exactly the notes and times of `AllNotes` and `AllTimes`, with the running time reset for each track |
| Bot.TrackPointsLength | bot.py:350-354 | a track contributes one note and one time per sounding message |
| Bot.AllPointsLength | bot.py:348-354 | the plotted notes and times have equal length |
| Bot.TrackTimesAscend | bot.py:349-354 | with non-negative deltas, the times of a track ascend and lie between 0 and the track's total time |
| Bot.PlottedNotes | bot.py:352 | the plot shows at most as many notes as the `note_on` count of the session, and exactly as many when no `note_on` has velocity 0 or less |
| BotListing.GroupByDateSpec | bot.py:136-145 | the dict holds each date of the sessions once, and under each date the entries of exactly the sessions of that date, in result order |
| BotListing.GroupByDateDistinct | bot.py:139-140 | the dict's keys are distinct |
| BotListing.GroupByDateCovers | bot.py:139-140 | every session's date is a key of the dict |
| BotListing.GroupByDatePermutes | bot.py:139-145 | the grouped entries are the entries of the sessions, each exactly once |
| BotListing.SortByTimeSpec | bot.py:148-149 | sorting the sessions of a date yields ascending times and the same entries |
| BotListing.SortEachPermutes | bot.py:147-149 | sorting inside each date keeps every entry of the dict |
| BotListing.SortEachDates | bot.py:147-149 | sorting inside the dates sorts each group where it stands and leaves the keys, and whether they are accepted dates, as they were |
| BotListing.DateOrdinalInjective | bot.py:156 | two dates `strptime` accepts with the same `%d.%m.%Y` key are the same string |
| BotListing.FormatDateAccepted | bot.py:156 | every date `get_midi_logs` formats is accepted by `strptime("%d.%m.%Y")`, and its key is the calendar date as yyyymmdd |
| BotListing.GroupByDateTexts | bot.py:155-157 | the dict's keys are all accepted by `strptime` exactly when every session's date is |
| BotListing.SortByDateDescPermutes | bot.py:155-157 | sorting the dates lists the same date groups holding the same entries |
| BotListing.SortByDateDescDescends | bot.py:155-157 | with distinct accepted dates, the dates come out strictly newest first |
| BotListing.EntryNotesPermutation | bot.py:137 | entries that are a permutation of each other have the same total of note counts |
| BotListing.SumNotesEntries | bot.py:137 | the total over the sessions equals the total over their entries |
| BotSend.CollectByDate | bot.py:136-145 | the loop over the sessions builds the date dict of `GroupByDate` |
| BotSend.SortWithinDates | bot.py:147-149 | the loop over the dates sorts each date's sessions in place, giving `SortEach` |
| BotSend.FileList | bot.py:151-162 | the nested loops build `FileLines`: a heading per date, then one numbered line per session, with the number carried across dates |
| BotSend.AppendSessions | bot.py:159-162 | the inner loop appends one line per session of a date, numbered on from the current number, and returns the next number |
| BotSend.SendMidiFiles | bot.py:125-165 | the reply for the fetched sessions is `ListingOf`: no data, the error reply, or the joined lines with the total |
| BotSend.LayoutItems | bot.py:151-162 | the numbered lines of the listing are the sessions in listing order, numbered from 1 |
| BotSend.LayoutHeaders | bot.py:155-158 | the headings are one per date, in listing order |
| BotSend.LayoutAscends | bot.py:159-161 | when each date's sessions ascend in time, consecutive numbered lines under a date ascend in time |
| BotSend.FileLinesRender | bot.py:151-162 | the text lines are the rendering of the line layout |
| BotSend.SortedDictSpec | bot.py:136-149 | after the in-date sort, the dates are distinct; each holds exactly its sessions sorted by time; every session's date is present |
| BotSend.ListedPermutes | bot.py:139-162 | the listed entries are the sessions, each exactly once |
| BotSend.ListingNumbers | bot.py:151-162 | the sessions are numbered 1..n down the listing without gaps or repeats; every session appears once; the total is the sum of the listed note counts |
| BotSend.ListingDates | bot.py:147-161 | one heading per date, dates strictly newest first, each date heading exactly its sessions in ascending time, every session's date present |
| BotSend.ListingTimes | bot.py:147-161 | inside each date, the times of consecutive numbered lines ascend |
| BotSend.ListingOutcome | bot.py:128-195 | "no data" exactly for no sessions; the error exactly when some date is not accepted; otherwise the text is the rendered listing joined by newlines, with the total and its wording |
| BotSend.MidiLogsAccepted | bot.py:155-157 | sessions built from valid timestamps always have accepted dates, so the listing never takes the error path |
| MidiExport.CountSessions | midi_export.py:9-16 | `amount` is the number of opening rows; the keys of `sessions` are exactly 1..amount; key k holds the timestamp of the k-th opening row |
| MidiExport.OpenersSpec | midi_export.py:13-15 | a row is recorded exactly when it is at least a minute after its predecessor; each row is recorded at most once and in row order |
| MidiExport.OpenersAscend | midi_export.py:8-15 | on rows in timestamp order, each recorded session starts at least a minute after the one before, so the values ascend with the keys |
| MidiExport.FirstRowNeverOpens | midi_export.py:11-13 | when no row is later than the start time of the script, the first row never opens a session |
| MidiExport.OpenersSegment | midi_export.py:11-16 | the script counts as many sessions as `get_midi_logs` builds, less one exactly when the first row does not open a session |

## Left out

- The SQL query, its period cutoff from `utcnow()` and the device filter are
  left out. The model starts from the rows the query returned. `Ordered`
  states their `ORDER BY timestamp`, and `GetMidiLogs`, `GetSessionById` and
  `Reconstruct` require it. The query compares the stored ISO texts; the
  model takes that order to be the order of the instants.
- These are out of scope as persistence, devices and I/O: the polling loop of
  main.py, the retry and reconnect logic, the MIDI input polling, `play_midi_file`, the
  download of sent files, the plotting and the Telegram calls.
- `GetSessionById` takes the all-time rows as a parameter instead of running
  the query with `days=0`.
- The MIDI file encoding (`MidiFile.save`) and JSON decoding of messages are
  left out. A track is kept as the message sequence it would encode. On
  ordered rows every delta is non-negative (`MidiLogsDeltasNonNegative`), so
  the negative branch of `TruncDiv` is never reached by `get_midi_logs`.
- `parser.parse` of the stored text is left out. A row carries the parsed
  timestamp, and `ValidTimestamp` says what any successful parse yields.
- midi_export.py stores the raw timestamp string (`row[1]`) as the dict
  value. The model stores the parsed timestamp of that row.
- `datetime.now()` in midi_export.py is the parameter `now`. Printing the
  dict is left out. `now` is local time, while the rows are stored with
  `datetime.utcnow()` (db.py:57). On a machine whose clock is behind UTC,
  recent rows can be later than `now`, and the first row can then open a
  session. `FirstRowNeverOpens` states the case where no row is later.
- `total_seconds()` is a float. Deltas are computed exactly on integer
  microseconds and then truncated like `int()`. The float rounding of
  `total_seconds() * 1000` is not modelled.
- `/1000` in the plot times is a float division. The model keeps the
  integer milliseconds.
- `str.isalnum` and `str.isspace` need the Unicode database. They are
  parameters of `SafeFilename`.
- `format_notes_count` returns "н/д нот" for a non-integer argument. Every
  caller passes an integer, so only the integer branch is modelled.
- The `int()` parse of the `/play` argument and its `ValueError` reply are
  left out, as is the argument split. `ChooseDevice` takes the parsed number.
- `strptime` accepts unpadded fields and other forms that `strftime` never
  produces. The model accepts exactly the ten-character form, and the error
  path is taken otherwise.
- Exceptions other than a date `strptime` rejects are left out, such as
  database errors inside `get_midi_logs` and failures to send.
- The send step is left out: one file or a zip of all files, the 50 MB limit
  and the captions. The listing text is modelled up to the caption it goes
  into.
- `total_notes_text` is computed but never used in a reply. The model
  computes it as the source does.
- `BotSend.FileList` takes the line renderer as a parameter, and
  `SendMidiFiles` passes `RenderLine`, the f-strings of bot.py:158 and 161.
  Its contract is stated for any renderer.
- Concurrency is out of scope: the bot's async handlers and the playback
  thread `play_midi` starts (data_engine.py:260).
