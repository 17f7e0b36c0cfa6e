/**
 * The polled playback tracker of the cloud-music media player, as functions
 * on a value that holds every field the tracker reads or writes. Positions
 * and durations are whole seconds; lyric times are milliseconds.
 */
module Tracker {
  import opened Wrappers
  import opened Lrc

  /** Home Assistant's media player states, and anything else a source player may report. */
  datatype PlayerState = Off | On | Idle | Playing | Paused | Unavailable | Other(name: string)

  /** What a tick reads from the underlying media player entity, when that entity exists. */
  datatype SourceReading = SourceReading(state: PlayerState, mediaDuration: Option<int>)

  /** The previous tick's record used to detect the end of a track. */
  datatype Snapshot = Snapshot(mediaPosition: int, mediaDuration: int, state: Option<PlayerState>)

  /** The keys of the entity's extra state attributes. */
  datatype AttributeKey = PlatformKey | LyricsKey | CurrentLyricKey | NextLyricKey

  /** The media_player services called on the source player. */
  datatype Service = PauseService | PlayService | SeekService | PlayMediaService

  /** Calls into the host and the catalog client, recorded in the order they are made. */
  datatype Effect =
    | WriteHaState                      // the entity's state is written back to the host
    | ScheduleNextTrack                 // a "next track" task is scheduled, not awaited
    | CallService(service: Service)     // a media_player service request, forwarded to the source player when it exists
    | CatalogPlayMedia(mediaId: string) // the catalog client resolves and queues `mediaId`
    | CatalogNextTrack(shuffle: bool)   // the catalog client moves to the next track
    | CatalogPreviousTrack(shuffle: bool)

  /** How a tick ended. `DurationUnset`: the snapshot read a duration no player ever reported. */
  datatype TickOutcome = NotPlaying | Recorded | EndOfTrack | DurationUnset

  /** The tracker's fields, and the lyric parser's lines and cursor. */
  datatype View = View(
    state: PlayerState,
    position: Option<int>,
    duration: Option<int>,
    beforeState: Option<Snapshot>,
    currentState: Option<PlayerState>,
    ticked: bool,                      // a tick has set the position once
    lyrics: Option<string>,
    currentLyric: Option<string>,
    attributes: map<AttributeKey, Option<string>>,
    lines: seq<LyricLine>,
    cursor: nat,
    repeat: string,
    shuffle: bool,
    effects: seq<Effect>)

  /** Once a tick has run the position is set; nothing clears it. */
  predicate Consistent(v: View) {
    v.ticked ==> v.position.Some?
  }

  /** The fields of a newly created player. */
  function Initial(): (v: View)
    ensures Consistent(v) && !v.ticked && v.state == On && v.beforeState.None? && v.currentState.None?
    ensures v.position.None? && v.duration.None? && v.lyrics.None? && v.currentLyric.None? && v.lines == []
    ensures v.repeat == "all" && !v.shuffle && v.effects == []
  {
    View(On, None, None, None, None, false, None, None, map[PlatformKey := Some("cloud_music")],
         [], 0, "all", false, [])
  }

  /** Lyrics count as loaded when a non-empty lyric text is held. */
  predicate LyricsLoaded(lyrics: Option<string>) {
    lyrics.Some? && lyrics.value != []
  }

  /**
   * The end-of-track rule: the previous tick saw a positive duration, the
   * current duration is more than one second, and at most one second of it
   * is left.
   */
  predicate EndOfTrackDue(before: Option<Snapshot>, duration: int, position: int) {
    before.Some? && before.value.mediaDuration > 0
    && duration - position <= 1 && duration > 1 && duration - position >= 0
  }

  /** The lyric step of a tick at `position` seconds: the cursor moves; the display changes only when the line's text differs. */
  function RefreshLyric(v: View, position: int): (w: View)
    ensures w.lines == v.lines && w.lyrics == v.lyrics && w.position == v.position && w.state == v.state
    ensures v.lines == [] ==> w.currentLyric.None?
    ensures v.lines != [] ==> w.cursor < |v.lines| && w.currentLyric == Some(v.lines[w.cursor].text)
    ensures w.currentLyric != v.currentLyric ==> CurrentLyricKey in w.attributes && w.attributes[CurrentLyricKey] == w.currentLyric
  {
    var t := position * 1000;
    var text := CurrentLyric(v.lines, t);
    var cursor := CursorAfter(v.lines, v.cursor, t);
    if text != v.currentLyric then
      v.(cursor := cursor, currentLyric := text,
         attributes := v.attributes[CurrentLyricKey := text][NextLyricKey := NextLyric(v.lines, cursor)],
         effects := v.effects + [WriteHaState])
    else v.(cursor := cursor)
  }

  /** The position a playing tick moves to: one second on, or 0 on the very first tick. */
  function NextPosition(v: View): int
    requires Consistent(v)
  {
    if v.ticked then v.position.value + 1 else 0
  }

  /** The first part of a playing tick: the position, the lyric step, and the state write. */
  function Advance(v: View): (w: View)
    requires Consistent(v)
    ensures w.position == Some(NextPosition(v)) && w.ticked
  {
    var p := NextPosition(v);
    var v1 := v.(position := Some(p), ticked := true);
    var v2 := if v.ticked && LyricsLoaded(v.lyrics) then RefreshLyric(v1, p) else v1;
    v2.(effects := v2.effects + [WriteHaState])
  }

  /**
   * The second part of a playing tick: read the source's duration, apply
   * the end-of-track rule, or record the snapshot.
   */
  function Observe(w: View, source: Option<SourceReading>): (r: (View, TickOutcome))
    requires w.position.Some? && w.ticked
    ensures Consistent(r.0)
  {
    var p := w.position.value;
    var w1 := if source.Some? then w.(duration := Some(source.value.mediaDuration.GetOr(0))) else w;
    if source.Some? && EndOfTrackDue(w1.beforeState, w1.duration.value, p) then
      (w1.(state := Paused, beforeState := None, effects := w1.effects + [ScheduleNextTrack]), EndOfTrack)
    else if w1.duration.None? then
      (w1, DurationUnset)
    else
      (w1.(beforeState := Some(Snapshot(p, w1.duration.value, w1.currentState)),
           currentState := Some(if source.Some? then source.value.state else w1.state)),
       Recorded)
  }

  /** One poll of the tracker, given what the source player reports (nothing when it is absent). */
  function Step(v: View, source: Option<SourceReading>): (r: (View, TickOutcome))
    requires Consistent(v)
    ensures Consistent(r.0)
  {
    if v.state != Playing then (v, NotPlaying) else Observe(Advance(v), source)
  }

  /** Playing a new item; `fetched` is what the lyric fetch returned (nothing without a playlist). */
  function PlayMediaStep(v: View, mediaId: string, fetched: Option<string>): (w: View)
    ensures Consistent(w) && w.ticked == v.ticked && w.repeat == v.repeat && w.shuffle == v.shuffle
  {
    var v1 := v.(state := Paused, position := Some(0), effects := v.effects + [CatalogPlayMedia(mediaId)]);
    var v2 :=
      if LyricsLoaded(fetched) then
        v1.(lines := Parse(fetched.value), cursor := 0, lyrics := fetched, currentLyric := None,
            attributes := v1.attributes[LyricsKey := fetched][CurrentLyricKey := None])
      else v1;
    v2.(effects := v2.effects + [CallService(PlayMediaService)], state := Playing, beforeState := None)
  }

  /** Seeking to `position`: the service call, the new position, a forced state of playing and one tick. */
  function SeekStep(v: View, position: int, source: Option<SourceReading>): (r: (View, TickOutcome))
    requires Consistent(v)
    ensures Consistent(r.0) && r.0.position.Some? && r.1 != NotPlaying
  {
    Step(v.(position := Some(position), state := Playing,
            effects := v.effects + [CallService(SeekService), WriteHaState]), source)
  }

  /** The end-of-track rule fires only in the last second of a track longer than one second. */
  lemma EndOfTrackWindow(before: Option<Snapshot>, duration: int, position: int)
    ensures EndOfTrackDue(before, duration, position) <==>
      before.Some? && before.value.mediaDuration > 0 && duration > 1
      && (position == duration - 1 || position == duration)
  {
  }

  /** Ticks in sequence, one per reading. */
  function Run(v: View, sources: seq<Option<SourceReading>>): (r: (View, seq<TickOutcome>))
    requires Consistent(v)
    ensures Consistent(r.0) && |r.1| == |sources|
    decreases |sources|
  {
    if sources == [] then (v, [])
    else
      var first := Step(v, sources[0]);
      var rest := Run(first.0, sources[1..]);
      (rest.0, [first.1] + rest.1)
  }

  function Count(os: seq<TickOutcome>, o: TickOutcome): nat {
    if os == [] then 0 else (if os[0] == o then 1 else 0) + Count(os[1..], o)
  }

  // ----- The two parts of a playing tick -----

  /** The first part moves the position and, on a counting tick with lyrics loaded, the lyric display; nothing else changes. */
  lemma AdvanceLyric(v: View)
    requires Consistent(v)
    ensures var a := Advance(v);
      var t := NextPosition(v) * 1000;
      a.lines == v.lines && a.lyrics == v.lyrics
      && if v.ticked && LyricsLoaded(v.lyrics) then
           a.currentLyric == CurrentLyric(v.lines, t) && a.cursor == CursorAfter(v.lines, v.cursor, t)
           && a.attributes == (if a.currentLyric == v.currentLyric then v.attributes
                               else v.attributes[CurrentLyricKey := a.currentLyric][NextLyricKey := NextLyric(v.lines, a.cursor)])
         else
           a.currentLyric == v.currentLyric && a.cursor == v.cursor && a.attributes == v.attributes
  {
  }

  /** The second part leaves the position and the lyric display alone. */
  lemma ObserveKeeps(w: View, source: Option<SourceReading>)
    requires w.position.Some? && w.ticked
    ensures var r := Observe(w, source).0;
      r.position == w.position && r.ticked && r.lines == w.lines && r.lyrics == w.lyrics
      && r.currentLyric == w.currentLyric && r.cursor == w.cursor && r.attributes == w.attributes
  {
  }

  // ----- One tick -----

  /** A tick while not playing changes nothing. */
  lemma TickWhenNotPlaying(v: View, source: Option<SourceReading>)
    requires Consistent(v) && v.state != Playing
    ensures Step(v, source) == (v, NotPlaying)
  {
  }

  /** A playing tick adds exactly one second, except the very first tick, which starts the position at 0. */
  lemma TickAdvancesPosition(v: View, source: Option<SourceReading>)
    requires Consistent(v) && v.state == Playing
    ensures Step(v, source).0.ticked
    ensures Step(v, source).0.position == Some(if v.ticked then v.position.value + 1 else 0)
    ensures Step(v, source).1 != NotPlaying
  {
    ObserveKeeps(Advance(v), source);
  }

  /**
   * The displayed lyric changes only on a counting tick with lyrics loaded,
   * and then the attributes carry the new line and the line after it.
   */
  lemma TickLyricChange(v: View, source: Option<SourceReading>)
    requires Consistent(v)
    ensures var w := Step(v, source).0;
      w.currentLyric != v.currentLyric ==>
        v.state == Playing && v.ticked && LyricsLoaded(v.lyrics)
        && w.attributes[CurrentLyricKey] == w.currentLyric
        && w.attributes[NextLyricKey] == NextLyric(v.lines, w.cursor)
  {
    if v.state == Playing {
      AdvanceLyric(v);
      ObserveKeeps(Advance(v), source);
    }
  }

  /**
   * After a counting tick with lyrics loaded, the display shows the parser's
   * line for the new position and the cursor sits on it.
   */
  lemma TickShowsActiveLine(v: View, source: Option<SourceReading>)
    requires Consistent(v) && v.state == Playing && v.ticked && LyricsLoaded(v.lyrics)
    ensures var w := Step(v, source).0;
      w.currentLyric == CurrentLyric(v.lines, (v.position.value + 1) * 1000)
      && w.cursor == CursorAfter(v.lines, v.cursor, (v.position.value + 1) * 1000)
  {
    AdvanceLyric(v);
    ObserveKeeps(Advance(v), source);
  }

  /** Otherwise the lyric display, the cursor and the attributes stay as they were; a tick never changes the lines. */
  lemma TickKeepsLyric(v: View, source: Option<SourceReading>)
    requires Consistent(v)
    ensures var w := Step(v, source).0;
      w.lines == v.lines && w.lyrics == v.lyrics
      && (!(v.state == Playing && v.ticked && LyricsLoaded(v.lyrics)) ==>
            w.currentLyric == v.currentLyric && w.cursor == v.cursor && w.attributes == v.attributes)
  {
    if v.state == Playing {
      AdvanceLyric(v);
      ObserveKeeps(Advance(v), source);
    }
  }

  /**
   * The end of the track is declared exactly when the rule holds for the
   * new position and the freshly read duration; the player then pauses,
   * forgets its snapshot and schedules one "next track", and records no
   * new snapshot.
   */
  lemma TickEndOfTrack(v: View, source: Option<SourceReading>)
    requires Consistent(v)
    ensures var (w, o) := Step(v, source);
      o == EndOfTrack <==>
        v.state == Playing && source.Some?
        && EndOfTrackDue(v.beforeState, source.value.mediaDuration.GetOr(0), w.position.value)
    ensures var (w, o) := Step(v, source);
      o == EndOfTrack ==>
        w.state == Paused && w.beforeState.None? && w.currentState == v.currentState
        && |w.effects| >= 1 && w.effects[|w.effects| - 1] == ScheduleNextTrack
        && ScheduleNextTrack !in w.effects[|v.effects|..|w.effects| - 1]
  {
    if v.state == Playing {
      AdvanceKeeps(v);
      ObserveEndOfTrack(Advance(v), source);
    }
  }

  lemma AdvanceKeeps(v: View)
    requires Consistent(v)
    ensures var a := Advance(v);
      a.state == v.state && a.beforeState == v.beforeState && a.currentState == v.currentState
      && a.duration == v.duration && |a.effects| > |v.effects| && a.effects[..|v.effects|] == v.effects
      && (forall e :: e in a.effects[|v.effects|..] ==> e == WriteHaState)
      && ScheduleNextTrack !in a.effects[|v.effects|..]
  {
    var a := Advance(v);
    assert forall e :: e in a.effects[|v.effects|..] ==> e == WriteHaState;
  }

  lemma ObserveEndOfTrack(w: View, source: Option<SourceReading>)
    requires w.position.Some? && w.ticked
    ensures var (r, o) := Observe(w, source);
      (o == EndOfTrack <==> source.Some? && EndOfTrackDue(w.beforeState, source.value.mediaDuration.GetOr(0), w.position.value))
      && r.position == w.position
      && (o == EndOfTrack ==>
            r.state == Paused && r.beforeState.None? && r.currentState == w.currentState
            && r.effects == w.effects + [ScheduleNextTrack])
  {
  }

  /** Every other playing tick records position, duration and the previous observed state, and keeps playing. */
  lemma TickRecordsSnapshot(v: View, source: Option<SourceReading>)
    requires Consistent(v)
    ensures var (w, o) := Step(v, source);
      o == Recorded ==>
        w.state == Playing
        && w.beforeState == Some(Snapshot(w.position.value, w.duration.value, v.currentState))
        && w.currentState == Some(if source.Some? then source.value.state else Playing)
        && w.duration == if source.Some? then Some(source.value.mediaDuration.GetOr(0)) else v.duration
    ensures var (w, o) := Step(v, source);
      o == DurationUnset <==> v.state == Playing && source.None? && v.duration.None?
  {
    if v.state == Playing {
      AdvanceKeeps(v);
    }
  }

  /** A playing tick keeps playing unless it ends the track. */
  lemma TickKeepsPlaying(v: View, source: Option<SourceReading>)
    requires Consistent(v) && v.state == Playing
    ensures Step(v, source).1 != EndOfTrack ==> Step(v, source).0.state == Playing
  {
    AdvanceKeeps(v);
  }

  /** Without a snapshot the end of the track cannot be declared. */
  lemma NoSnapshotNoEndOfTrack(v: View, source: Option<SourceReading>)
    requires Consistent(v) && v.beforeState.None?
    ensures Step(v, source).1 != EndOfTrack
  {
  }

  // ----- Many ticks -----

  /** While not playing, ticks do nothing at all. */
  lemma {:induction false} RunWhenNotPlaying(v: View, sources: seq<Option<SourceReading>>)
    requires Consistent(v) && v.state != Playing
    ensures Run(v, sources).0 == v
    ensures Count(Run(v, sources).1, EndOfTrack) == 0
    decreases |sources|
  {
    if sources != [] {
      RunWhenNotPlaying(v, sources[1..]);
    }
  }

  /** "Next track" is requested at most once however many ticks follow, until something plays again. */
  lemma {:induction false} EndOfTrackAtMostOnce(v: View, sources: seq<Option<SourceReading>>)
    requires Consistent(v)
    ensures Count(Run(v, sources).1, EndOfTrack) <= 1
    decreases |sources|
  {
    if sources != [] {
      var (v', o) := Step(v, sources[0]);
      if o == EndOfTrack {
        RunWhenNotPlaying(v', sources[1..]);
      } else {
        EndOfTrackAtMostOnce(v', sources[1..]);
      }
    }
  }

  /**
   * With a source that never reports more than one second of duration the
   * end of the track never fires and each tick adds one second.
   */
  lemma {:induction false} ShortDurationTicks(v: View, sources: seq<Option<SourceReading>>)
    requires Consistent(v) && v.state == Playing && v.ticked
    requires forall k :: 0 <= k < |sources| ==> sources[k].Some? && sources[k].value.mediaDuration.GetOr(0) <= 1
    ensures Run(v, sources).0.state == Playing
    ensures Run(v, sources).0.position == Some(v.position.value + |sources|)
    ensures Count(Run(v, sources).1, EndOfTrack) == 0
    decreases |sources|
  {
    if sources != [] {
      var first := Step(v, sources[0]);
      var v', o := first.0, first.1;
      TickEndOfTrack(v, sources[0]);
      TickAdvancesPosition(v, sources[0]);
      TickKeepsPlaying(v, sources[0]);
      assert o != EndOfTrack && v'.state == Playing && v'.ticked;
      assert v'.position.value == v.position.value + 1;
      ShortDurationTicks(v', sources[1..]);
      var rest := Run(v', sources[1..]);
      assert Run(v, sources) == (rest.0, [o] + rest.1);
      assert ([o] + rest.1)[1..] == rest.1;
      assert rest.0.position.value == v.position.value + 1 + (|sources| - 1);
    }
  }

  /**
   * A track whose duration first shows up (21 s) as the position reaches 20:
   * that tick only records it, the next one ends the track and pauses.
   */
  lemma TrackEndsOneTickAfterDurationAppears(v: View, state: PlayerState)
    requires Consistent(v) && v.state == Playing && v.ticked && v.position == Some(19)
    requires v.beforeState.Some? && v.beforeState.value.mediaDuration == 0
    ensures var src := Some(SourceReading(state, Some(21)));
      var r := Run(v, [src, src]);
      r.1 == [Recorded, EndOfTrack] && r.0.state == Paused && r.0.position == Some(21)
  {
    var src := Some(SourceReading(state, Some(21)));
    var r1 := Step(v, src);
    TickAdvancesPosition(v, src);
    TickEndOfTrack(v, src);
    TickRecordsSnapshot(v, src);
    assert r1.1 == Recorded && r1.0.position == Some(20) && r1.0.state == Playing;
    assert r1.0.beforeState.value.mediaDuration == 21;
    var r2 := Step(r1.0, src);
    TickAdvancesPosition(r1.0, src);
    TickEndOfTrack(r1.0, src);
    assert r2.1 == EndOfTrack && r2.0.state == Paused && r2.0.position == Some(21);
    assert [src][1..] == [] && [src, src][1..] == [src];
    assert Run(r2.0, []) == (r2.0, []);
    assert [r2.1] + [] == [r2.1];
    assert Run(r1.0, [src]) == (r2.0, [r2.1]);
  }

  // ----- Play and seek -----

  /**
   * Playing an item resets the position to 0, ends playing and clears the
   * snapshot; the lyrics are replaced by the parse of the fetched text only
   * when that text is not empty, and otherwise stay as they were.
   */
  lemma PlayMediaResets(v: View, mediaId: string, fetched: Option<string>)
    ensures var w := PlayMediaStep(v, mediaId, fetched);
      w.position == Some(0) && w.state == Playing && w.beforeState.None? && w.ticked == v.ticked
    ensures var w := PlayMediaStep(v, mediaId, fetched);
      if LyricsLoaded(fetched) then
        w.lyrics == fetched && w.lines == Parse(fetched.value) && w.cursor == 0 && w.currentLyric.None?
        && w.attributes[LyricsKey] == fetched && w.attributes[CurrentLyricKey].None?
      else
        w.lyrics == v.lyrics && w.lines == v.lines && w.cursor == v.cursor
        && w.currentLyric == v.currentLyric && w.attributes == v.attributes
    ensures PlayMediaStep(v, mediaId, fetched).effects
            == v.effects + [CatalogPlayMedia(mediaId), CallService(PlayMediaService)]
  {
  }

  /** The first tick after playing an item cannot end the track: there is no snapshot yet. */
  lemma FirstTickAfterPlayMedia(v: View, mediaId: string, fetched: Option<string>, source: Option<SourceReading>)
    requires Consistent(v)
    ensures Consistent(PlayMediaStep(v, mediaId, fetched))
    ensures Step(PlayMediaStep(v, mediaId, fetched), source).1 != EndOfTrack
  {
  }

  /**
   * Seeking keeps the previous snapshot, so its forced tick ends the track
   * exactly when the rule holds for `position + 1` (0 before any tick); if
   * it does not, the position ends one second past the target, or at 0
   * before any tick.
   */
  lemma SeekTick(v: View, position: int, source: Option<SourceReading>)
    requires Consistent(v)
    ensures var (w, o) := SeekStep(v, position, source);
      var p := if v.ticked then position + 1 else 0;
      w.position == Some(p)
      && (o == EndOfTrack <==> source.Some? && EndOfTrackDue(v.beforeState, source.value.mediaDuration.GetOr(0), p))
      && (o != EndOfTrack ==> w.state == Playing)
  {
  }
}
