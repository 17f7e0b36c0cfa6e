/**
 * The cloud-music media player entity: the fields its poll and its service
 * handlers update, with each method proved against the Tracker functions.
 */
module MediaPlayer {
  import opened Wrappers
  import opened Lrc
  import opened LyricParsing
  import opened Tracker

  class CloudMusicMediaPlayer {
    var state: PlayerState
    var position: Option<int>
    var duration: Option<int>
    /** The previous tick's snapshot, used to detect the end of a track. */
    var beforeState: Option<Snapshot>
    /** The state observed on the previous tick (the source player's, or this entity's without one). */
    var currentState: Option<PlayerState>
    /** A tick has run once: later ticks add a second instead of starting at 0. */
    var ticked: bool
    var lyrics: Option<string>
    var currentLyric: Option<string>
    /** The extra state attributes shown to the host. */
    var attributes: map<AttributeKey, Option<string>>
    var repeat: string
    var shuffle: bool
    /** The calls made to the host and the catalog client, in order. */
    var effects: seq<Effect>
    const lyricParser: LyricParser

    /** Every field, with the parser's lines and cursor. */
    function Model(): View
      reads this, lyricParser
    {
      View(state, position, duration, beforeState, currentState, ticked, lyrics, currentLyric,
           attributes, lyricParser.lyrics, lyricParser.currentIndex, repeat, shuffle, effects)
    }

    ghost predicate Valid()
      reads this, lyricParser
    {
      lyricParser.Valid() && (ticked ==> position.Some?)
    }

    constructor ()
      ensures Valid() && fresh(lyricParser)
      ensures Model() == Initial()
    {
      state := On;
      position := None;
      duration := None;
      beforeState := None;
      currentState := None;
      ticked := false;
      lyrics := None;
      currentLyric := None;
      attributes := map[PlatformKey := Some("cloud_music")];
      repeat := "all";
      shuffle := false;
      effects := [];
      lyricParser := new LyricParser();
    }

    /** The once-a-second poll. */
    method Tick(source: Option<SourceReading>) returns (outcome: TickOutcome)
      requires Valid()
      modifies this, lyricParser
      ensures Valid()
      ensures (Model(), outcome) == Step(old(Model()), source)
    {
      if state != Playing {
        return NotPlaying;
      }
      AdvancePosition();
      outcome := ObserveSource(source);
    }

    /** The first part of a playing tick: move the position, refresh the lyric, write the state. */
    method AdvancePosition()
      requires Valid()
      modifies this`position, this`ticked, this`currentLyric, this`attributes, this`effects, lyricParser`currentIndex
      ensures Valid()
      ensures Model() == Advance(old(Model()))
    {
      ghost var v := Model();
      var counting := ticked;
      var p: int;
      if !counting {
        ticked := true;
        p := 0;
        position := Some(p);
      } else {
        p := position.value + 1;
        position := Some(p);
      }
      assert p == NextPosition(v);
      ghost var v1 := v.(position := Some(p), ticked := true);
      assert Model() == v1;
      if counting && lyrics.Some? && lyrics.value != [] {
        RefreshLyricDisplay(p);
      }
      assert Model() == if v.ticked && LyricsLoaded(v.lyrics) then RefreshLyric(v1, p) else v1;
      effects := effects + [WriteHaState];
    }

    /** The second part of a playing tick: read the source's duration, end the track or record the snapshot. */
    method ObserveSource(source: Option<SourceReading>) returns (outcome: TickOutcome)
      requires Valid() && ticked
      modifies this`duration, this`state, this`beforeState, this`currentState, this`effects
      ensures Valid()
      ensures (Model(), outcome) == Observe(old(Model()), source)
    {
      ghost var w := Model();
      var p := position.value;
      ghost var w1 := if source.Some? then w.(duration := Some(source.value.mediaDuration.GetOr(0))) else w;
      if source.Some? {
        var d := source.value.mediaDuration.GetOr(0);
        duration := Some(d);
        assert Model() == w1;
        if beforeState.Some? {
          if beforeState.value.mediaDuration > 0 {
            var delta := d - p;
            if delta <= 1 && d > 1 && delta >= 0 {
              state := Paused;
              beforeState := None;
              effects := effects + [ScheduleNextTrack];
              return EndOfTrack;
            }
          }
        }
      }
      assert Model() == w1 && !(source.Some? && EndOfTrackDue(w1.beforeState, w1.duration.value, p));
      if duration.None? {
        return DurationUnset;
      }
      beforeState := Some(Snapshot(p, duration.value, currentState));
      currentState := if source.Some? then Some(source.value.state) else Some(state);
      outcome := Recorded;
    }

    /** The lyric part of a tick at `p` seconds: look up the line, and show it with the next one when its text changed. */
    method RefreshLyricDisplay(p: int)
      requires Valid()
      modifies this`currentLyric, this`attributes, this`effects, lyricParser`currentIndex
      ensures Valid()
      ensures Model() == RefreshLyric(old(Model()), p)
    {
      var text := lyricParser.GetCurrentLyric(p * 1000);
      if text != currentLyric {
        currentLyric := text;
        attributes := attributes[CurrentLyricKey := text];
        var next := lyricParser.GetNextLyric();
        attributes := attributes[NextLyricKey := next];
        effects := effects + [WriteHaState];
      }
    }

    /**
     * Plays `mediaId`. `fetched` is what the lyric fetch for the chosen song
     * returned, nothing when there is no playlist.
     */
    method PlayMedia(mediaId: string, fetched: Option<string>)
      requires Valid()
      modifies this, lyricParser
      ensures Valid()
      ensures Model() == PlayMediaStep(old(Model()), mediaId, fetched)
    {
      StopForItem(mediaId);
      if fetched.Some? && fetched.value != [] {
        LoadLyrics(fetched.value);
      }
      StartItem();
    }

    /** The start of playing an item: pause, rewind, and hand `mediaId` to the catalog client. */
    method StopForItem(mediaId: string)
      requires Valid()
      modifies this`state, this`position, this`effects
      ensures Valid()
      ensures Model() == old(Model()).(state := Paused, position := Some(0), effects := old(effects) + [CatalogPlayMedia(mediaId)])
    {
      state := Paused;
      position := Some(0);
      effects := effects + [CatalogPlayMedia(mediaId)];
    }

    /** The end of playing an item: the play_media call on the source player, playing, no snapshot. */
    method StartItem()
      requires Valid()
      modifies this`state, this`effects, this`beforeState
      ensures Valid()
      ensures Model() == old(Model()).(effects := old(effects) + [CallService(PlayMediaService)], state := Playing, beforeState := None)
    {
      effects := effects + [CallService(PlayMediaService)];
      state := Playing;
      beforeState := None;
    }

    /** The lyric part of playing an item: parse the fetched text and show it, with no line yet. */
    method LoadLyrics(text: string)
      requires Valid()
      modifies this`lyrics, this`currentLyric, this`attributes, lyricParser
      ensures Valid()
      ensures lyricParser.lyrics == Parse(text) && lyricParser.currentIndex == 0
      ensures lyrics == Some(text) && currentLyric == None
      ensures attributes == old(attributes)[LyricsKey := Some(text)][CurrentLyricKey := None]
    {
      lyricParser.ParseLrc(text);
      lyrics := Some(text);
      currentLyric := None;
      attributes := attributes[LyricsKey := Some(text)];
      attributes := attributes[CurrentLyricKey := None];
    }

    /** Seeks to `target` seconds and runs one tick at once; the snapshot is kept. */
    method MediaSeek(target: int, source: Option<SourceReading>) returns (outcome: TickOutcome)
      requires Valid()
      modifies this, lyricParser
      ensures Valid()
      ensures (Model(), outcome) == SeekStep(old(Model()), target, source)
    {
      ghost var v := Model();
      effects := effects + [CallService(SeekService)];
      position := Some(target);
      effects := effects + [WriteHaState];
      state := Playing;
      assert Model() == v.(position := Some(target), state := Playing,
                           effects := v.effects + [CallService(SeekService), WriteHaState]);
      outcome := Tick(source);
    }

    /** Resumes: pause, play, pause, play on the source player, then playing. */
    method MediaPlay()
      requires Valid()
      modifies this`state, this`effects
      ensures Valid()
      ensures state == Playing
      ensures effects == old(effects) + [CallService(PauseService), CallService(PlayService),
                                         CallService(PauseService), CallService(PlayService)]
    {
      effects := effects + [CallService(PauseService)];
      effects := effects + [CallService(PlayService)];
      effects := effects + [CallService(PauseService)];
      effects := effects + [CallService(PlayService)];
      state := Playing;
    }

    method MediaPause()
      requires Valid()
      modifies this`state, this`effects
      ensures Valid()
      ensures state == Paused && effects == old(effects) + [CallService(PauseService)]
    {
      state := Paused;
      effects := effects + [CallService(PauseService)];
    }

    method SetRepeat(mode: string)
      modifies this`repeat
      ensures repeat == mode
    {
      repeat := mode;
    }

    method SetShuffle(on: bool)
      modifies this`shuffle
      ensures shuffle == on
    {
      shuffle := on;
    }

    /** Pauses, asks the catalog for the next track, and rewinds the position. */
    method MediaNextTrack()
      requires Valid()
      modifies this`state, this`position, this`effects
      ensures Valid()
      ensures state == Paused && position == Some(0)
      ensures effects == old(effects) + [CatalogNextTrack(shuffle)]
    {
      state := Paused;
      effects := effects + [CatalogNextTrack(shuffle)];
      position := Some(0);
    }

    /** Pauses, asks the catalog for the previous track, and rewinds the position. */
    method MediaPreviousTrack()
      requires Valid()
      modifies this`state, this`position, this`effects
      ensures Valid()
      ensures state == Paused && position == Some(0)
      ensures effects == old(effects) + [CatalogPreviousTrack(shuffle)]
    {
      state := Paused;
      effects := effects + [CatalogPreviousTrack(shuffle)];
      position := Some(0);
    }
  }
}
