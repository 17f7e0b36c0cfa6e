# Cloud-music media player: lyric parser and playback tracker

This Dafny project models two parts of the `ha_cloud_music` Home Assistant
integration:

- **The LRC lyric parser** (`LyricParser`). `parse_lrc` splits a lyric text into
  lines. It keeps every line that starts with a `[mm:ss.ff]` or `[mm:ss.fff]` tag
  and has non-blank text, strips that text, and sorts the lines stably by time.
  `get_current_lyric` finds the line active at a time and moves the cursor to it.
  `get_next_lyric` and `get_previous_lyric` read around the cursor.
- **The media player entity** (`CloudMusicMediaPlayer`).
  - Its once-a-second poll, `interval`, moves the position on by one second and
    refreshes the displayed lyric. It reads the source player's duration, checks
    for the end of the track and records a snapshot for the next poll.
  - Its service handlers (play media, seek, play, pause, next and previous track,
    repeat, shuffle) update the same fields.

The project has seven files:

- `wrappers.dfy`: `Option`.
- `text.dfy`: Python's `str.strip` (with `str.isspace`), `split('\n')` and decimal digit strings.
- `lrc.dfy`: the pure LRC model.
  - The tag pattern, as a predicate `Matches` and as the function `MatchTag`.
  - Tag times.
  - The kept lines.
  - A stable insertion sort.
  - The active-line index with its cursor lookups.
- `lrc_cases.dfy`: worked examples of the LRC model on literal inputs.
- `lyric_parser.dfy`: the class `LyricParser`, whose fields `lyrics` and `currentIndex` are updated by its methods.
- `tracker.dfy`: the player's fields as one value `View`, with these operations as functions:
  - `Step`: one poll.
  - `PlayMediaStep`: playing an item.
  - `SeekStep`: a seek.

  The lemmas about many ticks live here too.
- `media_player.dfy`: the class `CloudMusicMediaPlayer`. Its methods carry three kinds of contract:
  - `Tick`, `AdvancePosition`, `ObserveSource`, `RefreshLyricDisplay`, `PlayMedia` and `MediaSeek`
    ensure `Model() == F(old(Model()))`, where `F` is the matching `Tracker` function
    (`Step`, `Advance`, `Observe`, `RefreshLyric`, `PlayMediaStep`, `SeekStep`).
  - `StopForItem` and `StartItem`, the first and last parts of playing an item, state `Model()` as a
    field update of `old(Model())`.
  - `LoadLyrics`, `MediaPlay`, `MediaPause`, `SetRepeat`, `SetShuffle`, `MediaNextTrack` and
    `MediaPreviousTrack` state the new value of each field they change. Their field-level `modifies`
    clauses keep every other field as it was.

Units:

- Positions and durations are whole seconds. The poll's own position counts whole seconds, but a
  source-reported duration or a seek target may be fractional in the source; that is a
  simplification, listed under "## Left out".
- Lyric times are whole milliseconds: `mm * 60000 + ss * 1000 + f`. Here `f` is the
  fraction digits read as an integer, so `.50` adds 50 ms and `.500` adds 500 ms,
  as `float(ms) / 1000` does.
- The poll compares a line time with the position in seconds. This is modelled
  exactly as `time <= position * 1000`.

Calls into the host and the catalog client are appended to the field `effects`,
in the order they are made:

- the state write-back;
- the scheduled "next track" task;
- `media_player` service requests;
- the catalog's play, next and previous calls.

What a poll reads from the source player entity is a parameter,
`Option<SourceReading>`. The lyric text that playing an item fetches is a parameter too:
`fetched: Option<string>` of `PlayMedia`.

A stored lyric line is the datatype `Lrc.LyricLine(time, text)`, the parser's `LyricLine`
record (lyrics/parser.py:14-17), with the time in whole milliseconds.

Two behaviours of the code are easy to misread:

- **Before the first line:** when a time falls before the first line,
  `get_current_lyric` returns the *last* line, because its loop accepts the last
  index unconditionally (`Lrc.BeforeFirstSelectsLast`). It does not return nothing.
- **Seek:** a seek does *not* clear the end-of-track snapshot. After a poll has run,
  its forced poll moves the position on to `target + 1` (`Tracker.SeekTick`). The
  position does not stay at the target.

## Model

| member | source | states |
|---|---|---|
| Text.Strip | custom_components/ha_cloud_music/lyrics/parser.py:42-43 | the result has no leading or trailing Python whitespace and is a contiguous slice of the input with only whitespace cut from both ends |
| Text.StripEmptyIff | custom_components/ha_cloud_music/lyrics/parser.py:42 | the stripped text is empty exactly when every character is whitespace, which is when the line is skipped |
| Text.StripIdempotent | custom_components/ha_cloud_music/lyrics/parser.py:43 | stripping the stored, already stripped text again changes nothing |
| Text.SplitLines | custom_components/ha_cloud_music/lyrics/parser.py:37 | splitting on newline yields at least one piece and no piece holds a newline |
| Text.JoinSplitLines | custom_components/ha_cloud_music/lyrics/parser.py:37 | joining the pieces with newlines gives back the whole content, so no character is lost or invented |
| Text.DecimalValue | custom_components/ha_cloud_music/lyrics/parser.py:41 | the value of an n-digit string is below 10^n |
| Lrc.RestOfLine | custom_components/ha_cloud_music/lyrics/parser.py:35 | the `(.*)` group takes the longest prefix holding no newline |
| Lrc.RestOfLineUnique | custom_components/ha_cloud_music/lyrics/parser.py:35 | any newline-free prefix that reaches the end or a newline is that group |
| Lrc.Matches | custom_components/ha_cloud_music/lyrics/parser.py:35 | the reference definition of the pattern `\[(\d{2}):(\d{2})\.(\d{2,3})\](.*)` anchored at the line's start: the line begins with the tag built from well-formed groups, then the text group, which runs to the end of the line or the first newline |
| Lrc.MatchTag | custom_components/ha_cloud_music/lyrics/parser.py:35-38 | a match it reports satisfies the tag pattern: `[`, two digits, `:`, two digits, `.`, two or three digits, `]`, then the rest of the line |
| Lrc.MatchTagComplete | custom_components/ha_cloud_music/lyrics/parser.py:35-38 | every way the pattern matches the line at its start is the match reported, so the two-digit versus three-digit fraction choice is unique |
| Lrc.MatchTagCompleteAll | custom_components/ha_cloud_music/lyrics/parser.py:35-38 | the same for all candidate groups at once: reporting nothing means the line does not start with a tag |
| Lrc.TagLineMatches | custom_components/ha_cloud_music/lyrics/parser.py:35-40 | a tag written from well-formed groups, followed by newline-free text, matches the pattern with those groups |
| Lrc.MatchTagRoundTrip | custom_components/ha_cloud_music/lyrics/parser.py:35-40 | matching a tag written from well-formed groups gives back exactly those groups and that text |
| Lrc.TagTime | custom_components/ha_cloud_music/lyrics/parser.py:41 | a tag's time in ms, from two-digit minutes and seconds and a fraction of at most three digits, lies in [0, 6100000) |
| Lrc.ParseLine | custom_components/ha_cloud_music/lyrics/parser.py:38-43 | a kept line has stripped, non-empty text (its time is the tag's, proved in `ParseLineSpec`) |
| Lrc.ParseLineSpec | custom_components/ha_cloud_music/lyrics/parser.py:38-43 | a line is kept exactly when it matches the tag pattern with non-blank text, and then it holds that tag's time and the stripped text |
| Lrc.KeptLines | custom_components/ha_cloud_music/lyrics/parser.py:37-43 | the list the loop builds before sorting: each input line is parsed in order and the kept ones are appended (its promises are the lemmas `KeptLinesWellFormed`, `KeptLinesMembers` and `KeptLinesSnoc`) |
| Lrc.KeptLinesWellFormed | custom_components/ha_cloud_music/lyrics/parser.py:39-43 | every appended line has stripped, non-empty text |
| Lrc.KeptLinesMembers | custom_components/ha_cloud_music/lyrics/parser.py:37-43 | a line is in the list before sorting exactly when some input line parses to it |
| Lrc.KeptLinesSnoc | custom_components/ha_cloud_music/lyrics/parser.py:37-43 | each loop step appends the parse of the current input line when it is kept, and nothing otherwise |
| Lrc.InsertByTime | custom_components/ha_cloud_music/lyrics/parser.py:46 | inserting adds exactly one element, and the new head is the inserted line or the old head |
| Lrc.InsertByTimePermutes | custom_components/ha_cloud_music/lyrics/parser.py:46 | inserting adds exactly the inserted line to the multiset |
| Lrc.InsertByTimeSorted | custom_components/ha_cloud_music/lyrics/parser.py:46 | inserting into a list sorted by time keeps it sorted |
| Lrc.WithTimeInsert | custom_components/ha_cloud_music/lyrics/parser.py:46 | inserting into a sorted list puts the new line after every line with the same time |
| Lrc.SortByTime | custom_components/ha_cloud_music/lyrics/parser.py:46 | sorting keeps the length |
| Lrc.SortByTimeSorted | custom_components/ha_cloud_music/lyrics/parser.py:46 | the sorted list is ordered by non-decreasing time |
| Lrc.SortByTimePermutes | custom_components/ha_cloud_music/lyrics/parser.py:46 | the sorted list is a permutation of the input |
| Lrc.SortByTimeStable | custom_components/ha_cloud_music/lyrics/parser.py:46 | lines with equal times keep their input order, as Python's stable `sort` does |
| Lrc.Parse | custom_components/ha_cloud_music/lyrics/parser.py:29-46 | the stored lines for a text: the kept lines of its newline-split pieces, stably sorted by time (its promises are the lemmas `ParseSpec`, `ParseLength` and `ParseWithoutTags`) |
| Lrc.ParseSpec | custom_components/ha_cloud_music/lyrics/parser.py:29-46 | the parsed list is sorted, is a stable permutation of the kept lines, and every line is well formed |
| Lrc.ParseLength | custom_components/ha_cloud_music/lyrics/parser.py:37-43 | parsing stores at most one line per line of the text |
| Lrc.ParseWithoutTags | custom_components/ha_cloud_music/lyrics/parser.py:35-46 | content in which no line starts with a tag parses to no lines |
| Lrc.Selects | custom_components/ha_cloud_music/lyrics/parser.py:56 | the scan's stop test: the index is the last one, or the time lies in `[time[i], time[i+1])` |
| Lrc.ScanFrom | custom_components/ha_cloud_music/lyrics/parser.py:55-58 | the scan from index k returns the first index at or after k that is the last or whose span contains the time |
| Lrc.ActiveIndex | custom_components/ha_cloud_music/lyrics/parser.py:55-58 | the active index is the first i with `time[i] <= t < time[i+1]`, or else the last index |
| Lrc.CurrentLyric | custom_components/ha_cloud_music/lyrics/parser.py:49-60 | the current lyric is absent exactly when there are no lines |
| Lrc.CursorAfter | custom_components/ha_cloud_music/lyrics/parser.py:55-57 | with lines loaded, the cursor moves to an index in range whose text is the current lyric |
| Lrc.NextLyric | custom_components/ha_cloud_music/lyrics/parser.py:62-66 | there is a next lyric exactly when a line follows the cursor, and it is that line's text |
| Lrc.PreviousLyric | custom_components/ha_cloud_music/lyrics/parser.py:68-72 | there is a previous lyric exactly when the cursor is past 0, and it is the text of the line before it |
| Lrc.LookupIdempotent | custom_components/ha_cloud_music/lyrics/parser.py:49-58 | looking up the same time twice leaves the cursor where the first lookup put it |
| Lrc.BeforeFirstSelectsLast | custom_components/ha_cloud_music/lyrics/parser.py:55-56 | in a sorted list, a time before the first line selects the last line |
| Lrc.ActiveIsLastStarted | custom_components/ha_cloud_music/lyrics/parser.py:55-58 | in a sorted list, from the first line's time on, the active line has started and every later line starts after the time |
| LrcCases.DigitValues | custom_components/ha_cloud_music/lyrics/parser.py:41 | "00", "01", "02", "50" and "500" read as 0, 1, 2, 50 and 500 |
| LrcCases.TwoDigitFractionTime | custom_components/ha_cloud_music/lyrics/parser.py:41 | `[01:02.50]` is at 62050 ms |
| LrcCases.ThreeDigitFractionTime | custom_components/ha_cloud_music/lyrics/parser.py:41 | `[01:02.500]` is at 62500 ms |
| LrcCases.OnlyFirstTag | custom_components/ha_cloud_music/lyrics/parser.py:35-40 | a line with two tags keeps only the first as its time, and the second tag stays in the text |
| LrcCases.StripCase | custom_components/ha_cloud_music/lyrics/parser.py:43 | `" hi "` strips to `"hi"` |
| LrcCases.ThreeLineLookup | custom_components/ha_cloud_music/lyrics/parser.py:49-72 | on lines at 1 s, 10 s and 20 s, time 15 s selects the middle line, with next and previous around it; time 0 selects the last line |
| LrcCases.EmptyText | custom_components/ha_cloud_music/lyrics/parser.py:29-46 | empty content parses to no lines |
| LyricParsing.ParsedValid | custom_components/ha_cloud_music/lyrics/parser.py:29-46 | a freshly parsed list is sorted and well formed, as the parser's invariant needs |
| LyricParsing.LyricParser.constructor | custom_components/ha_cloud_music/lyrics/parser.py:20-22 | a new parser has no lines and cursor 0 |
| LyricParsing.LyricParser.ParseLrc | custom_components/ha_cloud_music/lyrics/parser.py:29-46 | the loop over the split lines leaves exactly the sorted kept lines, with the cursor reset to 0 |
| LyricParsing.LyricParser.GetCurrentLyric | custom_components/ha_cloud_music/lyrics/parser.py:49-60 | the scan returns the active line's text, or nothing when there are no lines, and leaves the cursor on that line |
| LyricParsing.LyricParser.GetNextLyric | custom_components/ha_cloud_music/lyrics/parser.py:62-66 | nothing when there are no lines or the cursor is on the last line; otherwise the text after the cursor |
| LyricParsing.LyricParser.GetPreviousLyric | custom_components/ha_cloud_music/lyrics/parser.py:68-72 | nothing when there are no lines or the cursor is 0; otherwise the text before the cursor |
| Tracker.Initial | custom_components/ha_cloud_music/media_player.py:87-115 | a new player is on and has not ticked; it has no position, duration, snapshot, observed state, lyrics, displayed line or parsed lines; it repeats all, does not shuffle and has made no calls |
| Tracker.Advance | custom_components/ha_cloud_music/media_player.py:124-150 | a playing tick sets the position to one second on, or 0 on the first tick, and marks the player as ticked |
| Tracker.Observe | custom_components/ha_cloud_music/media_player.py:150-197 | reading the source and recording the snapshot keeps the position set |
| Tracker.LyricsLoaded | custom_components/ha_cloud_music/media_player.py:137 | the truth test on the lyric text at lines 137 and 271: some text, and not the empty string |
| Tracker.NextPosition | custom_components/ha_cloud_music/media_player.py:128-132 | the position a playing tick moves to: one second on, or 0 when no tick has set it yet (stated for a whole tick by `TickAdvancesPosition`) |
| Tracker.EndOfTrackDue | custom_components/ha_cloud_music/media_player.py:158-163 | the end-of-track rule as written: a snapshot with positive duration, and a current duration above 1 with 0 to 1 seconds left |
| Tracker.EndOfTrackWindow | custom_components/ha_cloud_music/media_player.py:158-163 | the rule fires exactly at position `duration - 1` or `duration` of a track longer than one second, after a snapshot with positive duration |
| Tracker.RefreshLyric | custom_components/ha_cloud_music/media_player.py:136-148 | the lyric step keeps the lines, lyrics, position and state; with no lines nothing is displayed; otherwise the cursor is in range and the display shows the line it sits on; a changed display is also written to the current-lyric attribute |
| Tracker.Step | custom_components/ha_cloud_music/media_player.py:117-197 | a tick keeps the player's invariant that a ticked player has a position |
| Tracker.Run | custom_components/ha_cloud_music/media_player.py:117-197 | a run of ticks keeps that invariant and has one outcome per tick |
| Tracker.PlayMediaStep | custom_components/ha_cloud_music/media_player.py:246-287 | playing an item keeps the player consistent and keeps the first-tick flag, the repeat mode and the shuffle flag |
| Tracker.SeekStep | custom_components/ha_cloud_music/media_player.py:326-336 | a seek keeps the player consistent, leaves a position set, and its forced tick always runs, since the seek forces the playing state |
| Tracker.AdvanceLyric | custom_components/ha_cloud_music/media_player.py:128-150 | the first part of a tick changes the lyric display, cursor and attributes only on a counting tick with lyrics loaded; then they take the parser's lookup at the new position |
| Tracker.AdvanceKeeps | custom_components/ha_cloud_music/media_player.py:128-150 | the first part of a tick leaves state, snapshot, observed state and duration alone, keeps the old calls as a prefix, and appends at least one call, each a state write |
| Tracker.ObserveKeeps | custom_components/ha_cloud_music/media_player.py:150-197 | the second part of a tick leaves the position and the lyric display alone |
| Tracker.ObserveEndOfTrack | custom_components/ha_cloud_music/media_player.py:150-170 | the second part ends the track exactly when the end-of-track rule holds for the fresh duration, pausing and scheduling one next track |
| Tracker.TickWhenNotPlaying | custom_components/ha_cloud_music/media_player.py:120-122 | a tick while not playing changes nothing |
| Tracker.TickAdvancesPosition | custom_components/ha_cloud_music/media_player.py:128-133 | a playing tick adds exactly one second, except the first tick, which sets 0 |
| Tracker.TickLyricChange | custom_components/ha_cloud_music/media_player.py:136-148 | the displayed lyric changes only on a counting, playing tick with lyrics loaded, and then the attributes show the new line and the line after it |
| Tracker.TickShowsActiveLine | custom_components/ha_cloud_music/media_player.py:136-146 | after such a tick the display and the cursor are the parser's lookup for the new position |
| Tracker.TickKeepsLyric | custom_components/ha_cloud_music/media_player.py:117-197 | a tick never changes the lines; on any other tick, display, cursor and attributes stay as they were |
| Tracker.TickEndOfTrack | custom_components/ha_cloud_music/media_player.py:157-170 | end of track is declared exactly when the snapshot's duration is positive, the new duration is more than 1, and 0 to 1 seconds are left; it pauses, drops the snapshot and schedules one next track as its last call |
| Tracker.TickRecordsSnapshot | custom_components/ha_cloud_music/media_player.py:150-197 | any other playing tick records position, duration and the previous observed state, still plays and observes the source's state; the duration is unset exactly when no source ever reported one |
| Tracker.TickKeepsPlaying | custom_components/ha_cloud_music/media_player.py:117-197 | a playing tick stays playing unless it ends the track |
| Tracker.NoSnapshotNoEndOfTrack | custom_components/ha_cloud_music/media_player.py:158 | without a snapshot the end of the track is never declared |
| Tracker.RunWhenNotPlaying | custom_components/ha_cloud_music/media_player.py:120-122 | any number of ticks while not playing changes nothing and ends no track |
| Tracker.EndOfTrackAtMostOnce | custom_components/ha_cloud_music/media_player.py:158-170 | however many ticks run, the next track is requested at most once |
| Tracker.ShortDurationTicks | custom_components/ha_cloud_music/media_player.py:128-170 | with a source reporting at most one second of duration, n ticks add n seconds, keep playing and never end the track |
| Tracker.TrackEndsOneTickAfterDurationAppears | custom_components/ha_cloud_music/media_player.py:128-197 | a duration first reported as the position reaches 20 is only recorded; the next tick ends the track at 21 and pauses |
| Tracker.PlayMediaResets | custom_components/ha_cloud_music/media_player.py:246-287 | playing an item resets the position to 0, plays and drops the snapshot; non-empty fetched lyrics replace the lines and display, anything else leaves them; the catalog call precedes the play request |
| Tracker.FirstTickAfterPlayMedia | custom_components/ha_cloud_music/media_player.py:246-287 | the tick right after playing an item cannot end the track |
| Tracker.SeekTick | custom_components/ha_cloud_music/media_player.py:326-336 | a seek's forced tick keeps the old snapshot, ends the track exactly when the rule holds at target + 1 (0 before any tick), and otherwise plays at that position |
| MediaPlayer.CloudMusicMediaPlayer.constructor | custom_components/ha_cloud_music/media_player.py:87-115 | the new entity's fields are the initial view, with a fresh lyric parser |
| MediaPlayer.CloudMusicMediaPlayer.Tick | custom_components/ha_cloud_music/media_player.py:117-197 | the poll updates the fields to one `Step` of the old ones and returns its outcome |
| MediaPlayer.CloudMusicMediaPlayer.AdvancePosition | custom_components/ha_cloud_music/media_player.py:124-150 | the position and lyric part of the poll updates the fields to `Advance` of the old ones |
| MediaPlayer.CloudMusicMediaPlayer.ObserveSource | custom_components/ha_cloud_music/media_player.py:150-197 | the source, end-of-track and snapshot part updates the fields to `Observe` of the old ones |
| MediaPlayer.CloudMusicMediaPlayer.RefreshLyricDisplay | custom_components/ha_cloud_music/media_player.py:137-148 | the parser lookup and attribute update give `RefreshLyric` of the old fields |
| MediaPlayer.CloudMusicMediaPlayer.PlayMedia | custom_components/ha_cloud_music/media_player.py:246-287 | playing an item updates the fields to `PlayMediaStep` of the old ones |
| MediaPlayer.CloudMusicMediaPlayer.StopForItem | custom_components/ha_cloud_music/media_player.py:247-252 | playing an item first pauses, rewinds to 0 and calls the catalog, changing nothing else |
| MediaPlayer.CloudMusicMediaPlayer.LoadLyrics | custom_components/ha_cloud_music/media_player.py:270-277 | fetched lyrics are parsed into the parser and shown, with no current line |
| MediaPlayer.CloudMusicMediaPlayer.StartItem | custom_components/ha_cloud_music/media_player.py:281-287 | playing an item ends with the play request, playing, and no snapshot |
| MediaPlayer.CloudMusicMediaPlayer.MediaSeek | custom_components/ha_cloud_music/media_player.py:326-336 | a seek updates the fields to `SeekStep` of the old ones and returns the forced tick's outcome |
| MediaPlayer.CloudMusicMediaPlayer.MediaPlay | custom_components/ha_cloud_music/media_player.py:289-302 | resuming sends pause, play, pause and play to the source player, then plays |
| MediaPlayer.CloudMusicMediaPlayer.MediaPause | custom_components/ha_cloud_music/media_player.py:304-306 | pausing sets paused and sends one pause request |
| MediaPlayer.CloudMusicMediaPlayer.SetRepeat | custom_components/ha_cloud_music/media_player.py:308-309 | the repeat mode becomes the given one |
| MediaPlayer.CloudMusicMediaPlayer.SetShuffle | custom_components/ha_cloud_music/media_player.py:311-312 | the shuffle flag becomes the given one |
| MediaPlayer.CloudMusicMediaPlayer.MediaNextTrack | custom_components/ha_cloud_music/media_player.py:314-318 | next track pauses, asks the catalog for the next track with the current shuffle flag, and rewinds to 0 |
| MediaPlayer.CloudMusicMediaPlayer.MediaPreviousTrack | custom_components/ha_cloud_music/media_player.py:320-324 | previous track pauses, asks the catalog for the previous track with the current shuffle flag, and rewinds to 0 |

## Left out

- The network lyric fetch (`fetch_lyrics`, `search_song`) is left out: it is I/O. The text it returns is the `fetched` parameter of play media, and without a playlist that parameter is nothing. The unused `AES`, `base64`, `random` and `codecs` imports of the parser module play no part.
- The timer setup in `async_setup_entry`, the host's state registry and the `media_player` property are left out. What a poll reads from the source player entity is the `Option<SourceReading>` parameter of `Tick`.
- Service calls: `CallService` records each request to `async_call`. The real call forwards it only when the source player exists; that check is not modelled.
- Clocks are left out. `_last_position_update` is replaced by the flag `ticked`, which records whether a first tick has set the position. `datetime.now()`, `_last_seek_time` and `_attr_media_position_updated_at` are dropped: nothing in the model reads them.
- The playlist metadata copied at the end of a poll (media_player.py:199-205) is left out: the playlist belongs to the catalog client, which is not part of this model.
- Playing an item records the catalog call, but not how its result picks `media_content_id` (media_player.py:251-264). The catalog client's effect on the playlist and on this entity is not modelled either.
- `TickOutcome.DurationUnset` stands for the `TypeError` that `int(None)` raises while recording the snapshot. The fields keep the values they had reached at that point.
- Tracker.Observe: a source entity whose `media_duration` attribute is present but `None` is treated like a missing attribute (0). The duration is stored raw at media_player.py:155 and only truncated by `int()` in the snapshot at lines 193-194; the model keeps whole seconds throughout, so a fractional duration and its truncation are not modelled.
- Tracker.SeekStep: the seek target is stored unchanged at media_player.py:329 and may be fractional in the source; the model takes whole seconds.
- The lyric parser's times are exact integers in milliseconds, not floats. For two- and three-digit fractions below 100 minutes, the integer model orders times the way the float arithmetic does.
- `\d` is modelled as ASCII `0`-`9`; Python's `re` also accepts other Unicode decimal digits.
- The `await`s are treated as atomic: a poll never interleaves with a service handler, and the 0.1 s sleeps in media play are left out.
- Volume and mute, browse media, `device_info`, `media_stop`, `async_update`, the front-end card and the integration setup in `__init__.py` are left out: they only forward calls or build host metadata.
- MediaPlayer.CloudMusicMediaPlayer.AdvancePosition: the lyric refresh runs after the position update. It is guarded by the first-tick flag and the loaded lyrics together, rather than nested in the `else` branch; the resulting state is the same, as its `ensures` shows.
