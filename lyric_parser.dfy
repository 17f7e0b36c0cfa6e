/** The stateful lyric parser: a list of timed lines and a cursor into it. */
module LyricParsing {
  import opened Wrappers
  import opened Text
  import opened Lrc

  predicate AllWellFormed(lines: seq<LyricLine>) {
    forall k :: 0 <= k < |lines| ==> WellFormedLine(lines[k])
  }

  /** What the parser's invariant needs of a freshly parsed list. */
  lemma ParsedValid(content: string)
    ensures SortedByTime(Parse(content)) && AllWellFormed(Parse(content))
  {
    ParseSpec(content);
  }

  class LyricParser {
    /** The parsed lines, sorted by time. */
    var lyrics: seq<LyricLine>
    /** The index of the line last found active; 0 after parsing. */
    var currentIndex: nat

    ghost predicate Valid()
      reads this
    {
      SortedByTime(lyrics) && AllWellFormed(lyrics)
      && (currentIndex == 0 || currentIndex < |lyrics|)
    }

    constructor ()
      ensures Valid() && lyrics == [] && currentIndex == 0
    {
      lyrics := [];
      currentIndex := 0;
    }

    /**
     * Replaces the lines with those of `content`: every line that starts with
     * a time tag and has non-blank text, stripped, sorted stably by time.
     * The cursor goes back to 0.
     */
    method ParseLrc(content: string)
      modifies this
      ensures Valid()
      ensures lyrics == Parse(content) && currentIndex == 0
    {
      lyrics := [];
      currentIndex := 0;
      var lines := SplitLines(content);
      var i := 0;
      while i < |lines|
        invariant 0 <= i <= |lines|
        invariant lyrics == KeptLines(lines[..i]) && currentIndex == 0
      {
        KeptLinesSnoc(lines, i);
        var m := MatchTag(lines[i]);
        if m.Some? {
          var time := TagTime(m.value);
          var text := Strip(m.value.text);
          if text != [] {
            lyrics := lyrics + [LyricLine(time, text)];
          }
        }
        i := i + 1;
      }
      assert lines[..i] == lines;
      lyrics := SortByTime(lyrics);
      ParsedValid(content);
    }

    /**
     * The text of the line active at `t` (milliseconds), found by scanning
     * from the first line; the cursor moves to it. Nothing, and no move,
     * when there are no lines.
     */
    method GetCurrentLyric(t: int) returns (r: Option<string>)
      requires Valid()
      modifies this`currentIndex
      ensures Valid()
      ensures r == CurrentLyric(lyrics, t)
      ensures currentIndex == CursorAfter(lyrics, old(currentIndex), t)
      ensures r.None? <==> lyrics == []
      ensures lyrics != [] ==> currentIndex < |lyrics| && r == Some(lyrics[currentIndex].text)
    {
      if lyrics == [] {
        return None;
      }
      var i := 0;
      while i < |lyrics|
        invariant 0 <= i <= ActiveIndex(lyrics, t)
      {
        if i == |lyrics| - 1 || (lyrics[i].time <= t < lyrics[i + 1].time) {
          assert Selects(lyrics, i, t);
          currentIndex := i;
          return Some(lyrics[i].text);
        }
        assert !Selects(lyrics, i, t);
        i := i + 1;
      }
      assert false;
      return None;
    }

    /** The text of the line after the cursor; nothing at or past the last line. Changes nothing. */
    method GetNextLyric() returns (r: Option<string>)
      ensures r == NextLyric(lyrics, currentIndex)
      ensures r.None? <==> (lyrics == [] || currentIndex >= |lyrics| - 1)
      ensures r.Some? ==> r.value == lyrics[currentIndex + 1].text
    {
      if lyrics == [] || currentIndex >= |lyrics| - 1 {
        return None;
      }
      return Some(lyrics[currentIndex + 1].text);
    }

    /** The text of the line before the cursor; nothing at the first line. Changes nothing. */
    method GetPreviousLyric() returns (r: Option<string>)
      requires Valid()
      ensures r == PreviousLyric(lyrics, currentIndex)
      ensures r.None? <==> (lyrics == [] || currentIndex <= 0)
      ensures r.Some? ==> r.value == lyrics[currentIndex - 1].text
    {
      if lyrics == [] || currentIndex <= 0 {
        return None;
      }
      return Some(lyrics[currentIndex - 1].text);
    }
  }
}
