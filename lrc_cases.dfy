/** Worked cases of the LRC rules: tag times, the first-tag-only rule, and the active line. */
module LrcCases {
  import opened Wrappers
  import opened Text
  import opened Lrc

  lemma DigitValues()
    ensures DecimalValue("00") == 0 && DecimalValue("01") == 1 && DecimalValue("02") == 2
    ensures DecimalValue("50") == 50 && DecimalValue("500") == 500
  {
    assert "00"[..1] == "0" && "01"[..1] == "0" && "02"[..1] == "0" && "50"[..1] == "5";
    assert "500"[..2] == "50";
    assert "0"[..0] == [] && "5"[..0] == [];
  }

  /** A two-digit fraction is read as milliseconds: `.50` is 50 ms. */
  lemma TwoDigitFractionTime()
    ensures TagTime(TagMatch("01", "02", "50", "x")) == 62050
  {
    DigitValues();
  }

  /** A three-digit fraction: `.500` is 500 ms. */
  lemma ThreeDigitFractionTime()
    ensures TagTime(TagMatch("01", "02", "500", "x")) == 62500
  {
    DigitValues();
  }

  lemma FirstTagGroups()
    ensures WellFormedGroups(TagMatch("00", "01", "00", "[00:05.00]x"))
  {
  }

  lemma FirstTagLine()
    ensures TagHead(TagMatch("00", "01", "00", "[00:05.00]x")) + "[00:05.00]x" == "[00:01.00][00:05.00]x"
  {
  }

  /** Only the first tag of a line is read; a second tag stays in the text. */
  lemma OnlyFirstTag()
    ensures MatchTag("[00:01.00][00:05.00]x") == Some(TagMatch("00", "01", "00", "[00:05.00]x"))
  {
    FirstTagGroups();
    FirstTagLine();
    MatchTagRoundTrip(TagMatch("00", "01", "00", "[00:05.00]x"));
  }

  /** Surrounding whitespace is stripped from the text. */
  lemma StripCase()
    ensures Strip(" hi ") == "hi"
  {
    assert LeadingSpace(" hi ") == 1;
    assert " hi "[1..] == "hi ";
    assert TrailingSpace("hi ") == 1;
  }

  function ThreeLines(): seq<LyricLine> {
    [LyricLine(1000, "A"), LyricLine(10000, "B"), LyricLine(20000, "C")]
  }

  /**
   * With lines at 1 s, 10 s and 20 s: 15 s shows the middle line, with the
   * lines on either side as next and previous; 0 s, before the first line,
   * shows the last one.
   */
  lemma ThreeLineLookup()
    ensures CursorAfter(ThreeLines(), 0, 15000) == 1
    ensures CurrentLyric(ThreeLines(), 15000) == Some("B")
    ensures NextLyric(ThreeLines(), 1) == Some("C") && PreviousLyric(ThreeLines(), 1) == Some("A")
    ensures CurrentLyric(ThreeLines(), 0) == Some("C")
  {
    var lines := ThreeLines();
    assert !InSpan(lines, 0, 15000) && InSpan(lines, 1, 15000);
    assert !InSpan(lines, 0, 0) && !InSpan(lines, 1, 0);
  }

  /** The empty text parses to no lines. */
  lemma EmptyText()
    ensures Parse("") == []
  {
    assert SplitLines("") == [""];
    ParseWithoutTags("");
  }
}
