/**
 * The LRC lyric format as the parser reads it: a line that starts with a
 * `[MM:SS.ff]` or `[MM:SS.fff]` tag carries the text after the tag; lines are
 * ordered by time; a time selects the line that is active then.
 *
 * Times are whole milliseconds. A tag's time is minutes * 60 s + seconds +
 * (the fraction's digits read as a number) ms, so `.50` is 50 ms and `.500`
 * is 500 ms.
 */
module Lrc {
  import opened Wrappers
  import opened Text

  /** One timestamped lyric line; `time` in milliseconds from the start of the track. */
  datatype LyricLine = LyricLine(time: int, text: string)

  /** The four groups a tag match captures: two minute digits, two second digits, two or three fraction digits, and the rest of the line. */
  datatype TagMatch = TagMatch(minutes: string, seconds: string, fraction: string, text: string)

  /** The tag part of a match, brackets and separators included. */
  function TagHead(g: TagMatch): string {
    "[" + g.minutes + ":" + g.seconds + "." + g.fraction + "]"
  }

  predicate WellFormedGroups(g: TagMatch) {
    |g.minutes| == 2 && AllDigits(g.minutes)
    && |g.seconds| == 2 && AllDigits(g.seconds)
    && 2 <= |g.fraction| <= 3 && AllDigits(g.fraction)
    && '\n' !in g.text
  }

  /**
   * The pattern, anchored at the start only, matches `line` with groups `g`:
   * the line starts with the tag followed by the text group, and the text
   * group runs up to the end of the line or to the first newline (a regular
   * expression `.` does not match a newline).
   */
  predicate Matches(line: string, g: TagMatch) {
    WellFormedGroups(g)
    && var n := |TagHead(g)| + |g.text|;
    n <= |line| && line[..n] == TagHead(g) + g.text && (n == |line| || line[n] == '\n')
  }

  /** The prefix of `s` before its first newline. */
  function RestOfLine(s: string): (r: string)
    ensures |r| <= |s| && r == s[..|r|] && '\n' !in r
    ensures |r| == |s| || s[|r|] == '\n'
  {
    if s == [] || s[0] == '\n' then [] else [s[0]] + RestOfLine(s[1..])
  }

  /** Any newline-free prefix that ends at a newline or at the end is the rest of the line. */
  lemma {:induction false} RestOfLineUnique(s: string, x: string)
    requires |x| <= |s| && s[..|x|] == x && '\n' !in x
    requires |x| == |s| || s[|x|] == '\n'
    ensures RestOfLine(s) == x
  {
    if x != [] {
      assert s[0] == x[0];
      assert s[1..][..|x| - 1] == x[1..];
      RestOfLineUnique(s[1..], x[1..]);
    }
  }

  /** A line starting `[dd:dd.ff]` (closing bracket at `n - 1`) starts with the head of its groups. */
  lemma TagHeadPrefix(line: string, n: nat, text: string)
    requires 10 <= n <= 11 && n <= |line|
    requires line[0] == '[' && line[3] == ':' && line[6] == '.' && line[n - 1] == ']'
    ensures TagHead(TagMatch(line[1..3], line[4..6], line[7..n - 1], text)) == line[..n]
  {
    assert line[..n] == line[..1] + line[1..3] + line[3..4] + line[4..6] + line[6..7] + line[7..n - 1] + line[n - 1..n];
  }

  /** The groups read off a line whose tag ends at `n`, followed by the rest of the line. */
  lemma GroupsMatch(line: string, n: nat)
    requires 10 <= n <= 11 && n <= |line|
    requires line[0] == '[' && line[3] == ':' && line[6] == '.' && line[n - 1] == ']'
    requires AllDigits(line[1..3]) && AllDigits(line[4..6]) && AllDigits(line[7..n - 1])
    ensures Matches(line, TagMatch(line[1..3], line[4..6], line[7..n - 1], RestOfLine(line[n..])))
  {
    var g := TagMatch(line[1..3], line[4..6], line[7..n - 1], RestOfLine(line[n..]));
    TagHeadPrefix(line, n, g.text);
    assert line[..n + |g.text|] == line[..n] + line[n..][..|g.text|];
  }

  /**
   * Python's `re.match` of the tag pattern. Three fraction digits are tried
   * first; two are taken when the third character is the closing bracket.
   */
  function MatchTag(line: string): (r: Option<TagMatch>)
    ensures r.Some? ==> Matches(line, r.value)
  {
    if |line| >= 10 && line[0] == '[' && IsDigit(line[1]) && IsDigit(line[2]) && line[3] == ':'
       && IsDigit(line[4]) && IsDigit(line[5]) && line[6] == '.' && IsDigit(line[7]) && IsDigit(line[8])
    then
      if |line| >= 11 && IsDigit(line[9]) && line[10] == ']' then
        GroupsMatch(line, 11);
        Some(TagMatch(line[1..3], line[4..6], line[7..10], RestOfLine(line[11..])))
      else if line[9] == ']' then
        GroupsMatch(line, 10);
        Some(TagMatch(line[1..3], line[4..6], line[7..9], RestOfLine(line[10..])))
      else None
    else None
  }

  /** Where the groups sit inside a tag head. */
  lemma TagHeadParts(g: TagMatch)
    requires WellFormedGroups(g)
    ensures var h := TagHead(g);
      |h| == 8 + |g.fraction| && h[0] == '[' && h[3] == ':' && h[6] == '.' && h[|h| - 1] == ']'
      && h[1..3] == g.minutes && h[4..6] == g.seconds && h[7..|h| - 1] == g.fraction
  {
    var h := TagHead(g);
    Middle("[", g.minutes, ":" + g.seconds + "." + g.fraction + "]");
    Middle("[" + g.minutes + ":", g.seconds, "." + g.fraction + "]");
    Middle("[" + g.minutes + ":" + g.seconds + ".", g.fraction, "]");
  }

  /** The middle part of a concatenation. */
  lemma Middle(p: string, q: string, r: string)
    ensures (p + q + r)[|p|..|p| + |q|] == q
  {
  }

  /** A matched line starts with the head of its groups, and the text group follows it. */
  lemma MatchedParts(line: string, g: TagMatch)
    requires Matches(line, g)
    ensures var h := TagHead(g);
      |h| <= |line| && line[..|h|] == h && line[|h|..][..|g.text|] == g.text
  {
    var h := TagHead(g);
    var n := |h| + |g.text|;
    assert line[..|h|] == line[..n][..|h|];
    assert (h + g.text)[..|h|] == h;
    assert line[|h|..][..|g.text|] == line[..n][|h|..];
    assert (h + g.text)[|h|..] == g.text;
  }

  lemma SliceOfPrefix(s: string, p: string, a: int, b: int)
    requires |p| <= |s| && s[..|p|] == p && 0 <= a < b <= |p|
    ensures s[a..b] == p[a..b] && s[a] == p[a]
  {
    assert forall i :: 0 <= i < |p| ==> s[i] == p[i] by {
      forall i | 0 <= i < |p| ensures s[i] == p[i] {
        assert s[..|p|][i] == s[i];
      }
    }
  }

  /** Every match of the pattern is the one `MatchTag` finds: the match is unique. */
  lemma MatchTagComplete(line: string, g: TagMatch)
    requires Matches(line, g)
    ensures MatchTag(line) == Some(g)
  {
    var h := TagHead(g);
    TagHeadParts(g);
    MatchedParts(line, g);
    var k := |h|;
    SliceOfPrefix(line, h, 1, 3);
    SliceOfPrefix(line, h, 4, 6);
    SliceOfPrefix(line, h, 7, k - 1);
    SliceOfPrefix(line, h, 0, 1);
    SliceOfPrefix(line, h, 3, 4);
    SliceOfPrefix(line, h, 6, 7);
    SliceOfPrefix(line, h, k - 1, k);
    assert IsDigit(line[1]) && IsDigit(line[2]) by { assert line[1] == g.minutes[0] && line[2] == g.minutes[1]; }
    assert IsDigit(line[4]) && IsDigit(line[5]) by { assert line[4] == g.seconds[0] && line[5] == g.seconds[1]; }
    assert IsDigit(line[7]) && IsDigit(line[8]) by { assert line[7] == g.fraction[0] && line[8] == g.fraction[1]; }
    var n := k + |g.text|;
    assert n == |line| || line[k..][|g.text|] == '\n';
    RestOfLineUnique(line[k..], g.text);
    if |g.fraction| == 3 {
      assert IsDigit(line[9]) by { assert line[9] == g.fraction[2]; }
    }
  }

  /** `MatchTagComplete` for every match at once. */
  lemma MatchTagCompleteAll(line: string)
    ensures forall g :: Matches(line, g) ==> MatchTag(line) == Some(g)
  {
    forall g | Matches(line, g) ensures MatchTag(line) == Some(g) {
      MatchTagComplete(line, g);
    }
  }

  /** A tag followed by a newline-free text matches with exactly those groups. */
  lemma TagLineMatches(g: TagMatch)
    requires WellFormedGroups(g)
    ensures Matches(TagHead(g) + g.text, g)
  {
    var line := TagHead(g) + g.text;
    assert line[..|line|] == line;
  }

  /** Writing a tag line and matching it gives the groups back. */
  lemma MatchTagRoundTrip(g: TagMatch)
    requires WellFormedGroups(g)
    ensures MatchTag(TagHead(g) + g.text) == Some(g)
  {
    TagLineMatches(g);
    MatchTagComplete(TagHead(g) + g.text, g);
  }

  /** The time of a tag in milliseconds; no range check on minutes or seconds. */
  function TagTime(g: TagMatch): (ms: int)
    requires WellFormedGroups(g)
    ensures 0 <= ms < 100 * 60000 + 100 * 1000
  {
    DecimalValue(g.minutes) * 60000 + DecimalValue(g.seconds) * 1000 + DecimalValue(g.fraction)
  }

  /** A stored line: non-empty text with no whitespace at either end. */
  predicate WellFormedLine(x: LyricLine) {
    x.text != [] && IsStripped(x.text)
  }

  /**
   * One line of input as the parser treats it: kept, with the tag's time and
   * the stripped text, when the line matches and its text is not blank.
   */
  function ParseLine(line: string): (r: Option<LyricLine>)
    ensures r.Some? ==> WellFormedLine(r.value)
  {
    match MatchTag(line)
    case None => None
    case Some(g) =>
      var text := Strip(g.text);
      if text == [] then None else Some(LyricLine(TagTime(g), text))
  }

  /**
   * A line is kept exactly when it matches the pattern with a text that is
   * not blank, and then it is kept with that match's time and stripped text.
   */
  lemma ParseLineSpec(line: string)
    ensures ParseLine(line).Some? <==> exists g :: Matches(line, g) && Strip(g.text) != []
    ensures forall g :: Matches(line, g) && Strip(g.text) != [] ==>
              ParseLine(line) == Some(LyricLine(TagTime(g), Strip(g.text)))
  {
    MatchTagCompleteAll(line);
  }

  /** The values present in `ps`, in order. */
  function Present<T>(ps: seq<Option<T>>): (r: seq<T>)
    ensures |r| <= |ps|
  {
    if ps == [] then []
    else Present(ps[..|ps| - 1]) + if ps[|ps| - 1].Some? then [ps[|ps| - 1].value] else []
  }

  lemma {:induction false} PresentMembers<T>(ps: seq<Option<T>>, x: T)
    ensures x in Present(ps) <==> exists j :: 0 <= j < |ps| && ps[j] == Some(x)
  {
    if ps != [] {
      var init := ps[..|ps| - 1];
      PresentMembers(init, x);
      assert forall j :: 0 <= j < |init| ==> init[j] == ps[j];
      if x in Present(ps) && x !in Present(init) {
        assert ps[|ps| - 1] == Some(x);
      }
    }
  }

  /** The lines kept from `lines`, in input order: every input line is parsed and the present results are kept. */
  function KeptLines(lines: seq<string>): seq<LyricLine> {
    Present(seq(|lines|, j requires 0 <= j < |lines| => ParseLine(lines[j])))
  }

  /** Every kept line is well formed. */
  lemma KeptLinesWellFormed(lines: seq<string>)
    ensures forall k :: 0 <= k < |KeptLines(lines)| ==> WellFormedLine(KeptLines(lines)[k])
  {
    var r := KeptLines(lines);
    forall k | 0 <= k < |r| ensures WellFormedLine(r[k]) {
      PresentMembers(seq(|lines|, j requires 0 <= j < |lines| => ParseLine(lines[j])), r[k]);
    }
  }

  /** A line is kept exactly when some input line parses to it. */
  lemma KeptLinesMembers(lines: seq<string>, x: LyricLine)
    ensures x in KeptLines(lines) <==> exists j :: 0 <= j < |lines| && ParseLine(lines[j]) == Some(x)
  {
    var ps := seq(|lines|, j requires 0 <= j < |lines| => ParseLine(lines[j]));
    assert forall j :: 0 <= j < |lines| ==> ps[j] == ParseLine(lines[j]);
    PresentMembers(ps, x);
  }

  /** Keeping lines one at a time: how the parser's loop extends its list. */
  lemma KeptLinesSnoc(lines: seq<string>, i: nat)
    requires i < |lines|
    ensures KeptLines(lines[..i + 1]) == KeptLines(lines[..i]) + if ParseLine(lines[i]).Some? then [ParseLine(lines[i]).value] else []
  {
    var init := lines[..i];
    var all := lines[..i + 1];
    var ps := seq(|all|, j requires 0 <= j < |all| => ParseLine(all[j]));
    var qs := seq(|init|, j requires 0 <= j < |init| => ParseLine(init[j]));
    assert ps[..i] == qs by {
      forall j | 0 <= j < i ensures ps[j] == qs[j] {
        assert all[j] == lines[j] == init[j];
      }
    }
    assert ps[i] == ParseLine(lines[i]);
  }

  predicate SortedByTime(s: seq<LyricLine>) {
    forall i, j :: 0 <= i < j < |s| ==> s[i].time <= s[j].time
  }

  /** Places `x` before the first element that is strictly later than it. */
  function InsertByTime(x: LyricLine, s: seq<LyricLine>): (r: seq<LyricLine>)
    ensures |r| == |s| + 1
    ensures r[0] == x || (s != [] && r[0] == s[0])
  {
    if s == [] || x.time < s[0].time then [x] + s
    else [s[0]] + InsertByTime(x, s[1..])
  }

  /** Insertion adds `x` and loses nothing. */
  lemma {:induction false} InsertByTimePermutes(x: LyricLine, s: seq<LyricLine>)
    ensures multiset(InsertByTime(x, s)) == multiset(s) + multiset{x}
  {
    if s != [] && s[0].time <= x.time {
      InsertByTimePermutes(x, s[1..]);
      assert s == [s[0]] + s[1..];
    }
  }

  /** Insertion keeps a sorted sequence sorted. */
  lemma {:induction false} InsertByTimeSorted(x: LyricLine, s: seq<LyricLine>)
    requires SortedByTime(s)
    ensures SortedByTime(InsertByTime(x, s))
  {
    if s != [] && s[0].time <= x.time {
      var tail := InsertByTime(x, s[1..]);
      InsertByTimeSorted(x, s[1..]);
      var r := [s[0]] + tail;
      assert InsertByTime(x, s) == r;
      assert s[0].time <= tail[0].time;
      forall i, j | 0 <= i < j < |r| ensures r[i].time <= r[j].time {
        if i == 0 {
          assert r[j] == tail[j - 1];
          assert tail[0].time <= tail[j - 1].time || j - 1 == 0;
        } else {
          assert r[i] == tail[i - 1] && r[j] == tail[j - 1];
        }
      }
    }
  }

  /**
   * Python's stable `list.sort(key=time)`, as insertion of each element, in
   * input order, after all earlier elements that are not later than it.
   */
  function SortByTime(s: seq<LyricLine>): (r: seq<LyricLine>)
    ensures |r| == |s|
  {
    if s == [] then [] else InsertByTime(s[|s| - 1], SortByTime(s[..|s| - 1]))
  }

  /** The sort's result is sorted. */
  lemma {:induction false} SortByTimeSorted(s: seq<LyricLine>)
    ensures SortedByTime(SortByTime(s))
  {
    if s != [] {
      SortByTimeSorted(s[..|s| - 1]);
      InsertByTimeSorted(s[|s| - 1], SortByTime(s[..|s| - 1]));
    }
  }

  lemma MultisetLast(s: seq<LyricLine>)
    requires s != []
    ensures multiset(s) == multiset(s[..|s| - 1]) + multiset{s[|s| - 1]}
  {
    assert s == s[..|s| - 1] + [s[|s| - 1]];
  }

  /** The sort's result is a permutation of its input. */
  lemma {:induction false} SortByTimePermutes(s: seq<LyricLine>)
    ensures multiset(SortByTime(s)) == multiset(s)
  {
    if s != [] {
      var init, x := s[..|s| - 1], s[|s| - 1];
      SortByTimePermutes(init);
      InsertByTimePermutes(x, SortByTime(init));
      MultisetLast(s);
    }
  }

  /** The elements of `s` whose time is `t`, in their order in `s`. */
  function WithTime(s: seq<LyricLine>, t: int): seq<LyricLine> {
    if s == [] then [] else (if s[0].time == t then [s[0]] else []) + WithTime(s[1..], t)
  }

  lemma {:induction false} WithTimeConcat(a: seq<LyricLine>, b: seq<LyricLine>, t: int)
    ensures WithTime(a + b, t) == WithTime(a, t) + WithTime(b, t)
  {
    if a != [] {
      var h := if a[0].time == t then [a[0]] else [];
      assert (a + b)[0] == a[0];
      assert (a + b)[1..] == a[1..] + b;
      WithTimeConcat(a[1..], b, t);
      calc {
        WithTime(a + b, t);
        h + WithTime(a[1..] + b, t);
        h + (WithTime(a[1..], t) + WithTime(b, t));
        (h + WithTime(a[1..], t)) + WithTime(b, t);
      }
    } else {
      assert a + b == b;
    }
  }

  lemma {:induction false} WithTimeAllLater(s: seq<LyricLine>, t: int)
    requires forall k :: 0 <= k < |s| ==> t < s[k].time
    ensures WithTime(s, t) == []
  {
    if s != [] {
      WithTimeAllLater(s[1..], t);
    }
  }

  lemma WithTimeCons(y: LyricLine, r: seq<LyricLine>, t: int)
    ensures WithTime([y] + r, t) == (if y.time == t then [y] else []) + WithTime(r, t)
  {
    assert ([y] + r)[1..] == r;
  }

  lemma SortedTail(s: seq<LyricLine>)
    requires s != [] && SortedByTime(s)
    ensures SortedByTime(s[1..])
    ensures forall k :: 0 <= k < |s| ==> s[0].time <= s[k].time
  {
    assert forall i :: 0 <= i < |s| - 1 ==> s[1..][i] == s[i + 1];
  }

  /** Inserting ahead of every element of a sorted sequence. */
  lemma WithTimeInsertFront(x: LyricLine, s: seq<LyricLine>, t: int)
    requires s != [] && SortedByTime(s) && x.time < s[0].time
    ensures WithTime(InsertByTime(x, s), t) == WithTime(s, t) + (if x.time == t then [x] else [])
  {
    WithTimeCons(x, s, t);
    if x.time == t {
      SortedTail(s);
      WithTimeAllLater(s, t);
    }
  }

  /** Inserting past the first element, given the insertion into the rest. */
  lemma WithTimeInsertPast(x: LyricLine, s: seq<LyricLine>, t: int)
    requires s != [] && s[0].time <= x.time
    requires WithTime(InsertByTime(x, s[1..]), t) == WithTime(s[1..], t) + (if x.time == t then [x] else [])
    ensures WithTime(InsertByTime(x, s), t) == WithTime(s, t) + (if x.time == t then [x] else [])
  {
    var e := if x.time == t then [x] else [];
    var h := if s[0].time == t then [s[0]] else [];
    var r := InsertByTime(x, s[1..]);
    WithTimeCons(s[0], r, t);
    assert h + (WithTime(s[1..], t) + e) == (h + WithTime(s[1..], t)) + e;
  }

  /** Inserting into a sorted sequence puts the new element after all elements of equal time. */
  lemma {:induction false} WithTimeInsert(x: LyricLine, s: seq<LyricLine>, t: int)
    requires SortedByTime(s)
    ensures WithTime(InsertByTime(x, s), t) == WithTime(s, t) + (if x.time == t then [x] else [])
  {
    if s == [] {
      WithTimeCons(x, [], t);
      assert [x] + [] == [x];
    } else if x.time < s[0].time {
      WithTimeInsertFront(x, s, t);
    } else {
      SortedTail(s);
      WithTimeInsert(x, s[1..], t);
      WithTimeInsertPast(x, s, t);
    }
  }

  /** The sort is stable: for each time, the lines with that time keep their input order. */
  lemma {:induction false} SortByTimeStable(s: seq<LyricLine>, t: int)
    ensures WithTime(SortByTime(s), t) == WithTime(s, t)
  {
    if s != [] {
      var init, x := s[..|s| - 1], s[|s| - 1];
      SortByTimeStable(init, t);
      SortByTimeSorted(init);
      WithTimeInsert(x, SortByTime(init), t);
      assert s == init + [x];
      WithTimeConcat(init, [x], t);
      assert WithTime([x], t) == (if x.time == t then [x] else []) by {
        assert [x][1..] == [];
      }
    }
  }

  /** The stored lines for a lyric text: the kept lines, stably sorted by time. */
  function Parse(content: string): seq<LyricLine> {
    SortByTime(KeptLines(SplitLines(content)))
  }

  /**
   * What parsing promises: the result is sorted by time, is a permutation of
   * the kept lines that keeps lines of equal time in input order, and every
   * stored text is stripped and non-empty.
   */
  lemma ParseSpec(content: string)
    ensures SortedByTime(Parse(content))
    ensures multiset(Parse(content)) == multiset(KeptLines(SplitLines(content)))
    ensures forall t :: WithTime(Parse(content), t) == WithTime(KeptLines(SplitLines(content)), t)
    ensures forall k :: 0 <= k < |Parse(content)| ==> WellFormedLine(Parse(content)[k])
  {
    var kept := KeptLines(SplitLines(content));
    var r := Parse(content);
    SortByTimeSorted(kept);
    SortByTimePermutes(kept);
    KeptLinesWellFormed(SplitLines(content));
    forall t ensures WithTime(r, t) == WithTime(kept, t) {
      SortByTimeStable(kept, t);
    }
    forall k | 0 <= k < |r| ensures WellFormedLine(r[k]) {
      assert r[k] in multiset(kept);
    }
  }

  /** Parsing stores at most one line per line of the text. */
  lemma ParseLength(content: string)
    ensures |Parse(content)| <= |SplitLines(content)|
  {
  }

  /** Text without any tag line parses to nothing; in particular the empty text does. */
  lemma ParseWithoutTags(content: string)
    requires forall line :: line in SplitLines(content) ==> MatchTag(line).None?
    ensures Parse(content) == []
  {
    var lines := SplitLines(content);
    var kept := KeptLines(lines);
    if kept != [] {
      KeptLinesMembers(lines, kept[0]);
    }
  }

  /** `i` starts the span `time[i] <= t < time[i+1]`. */
  predicate InSpan(lines: seq<LyricLine>, i: int, t: int) {
    0 <= i && i + 1 < |lines| && lines[i].time <= t < lines[i + 1].time
  }

  /** The scan stops at `i`: it is the last index, or `t` falls in its span. */
  predicate Selects(lines: seq<LyricLine>, i: int, t: int) {
    i == |lines| - 1 || InSpan(lines, i, t)
  }

  function ScanFrom(lines: seq<LyricLine>, t: int, k: nat): (i: nat)
    requires k < |lines|
    requires forall j :: 0 <= j < k ==> !InSpan(lines, j, t)
    ensures k <= i < |lines| && Selects(lines, i, t)
    ensures forall j :: 0 <= j < i ==> !InSpan(lines, j, t)
    decreases |lines| - k
  {
    if Selects(lines, k, t) then k else ScanFrom(lines, t, k + 1)
  }

  /**
   * The index of the line active at `t`: the first `i` with
   * `time[i] <= t < time[i+1]`, or the last index when there is none.
   */
  function ActiveIndex(lines: seq<LyricLine>, t: int): (i: nat)
    requires lines != []
    ensures i < |lines| && (i == |lines| - 1 || InSpan(lines, i, t))
    ensures forall j :: 0 <= j < i ==> !InSpan(lines, j, t)
  {
    ScanFrom(lines, t, 0)
  }

  /** The text of the active line, or nothing when there are no lines. */
  function CurrentLyric(lines: seq<LyricLine>, t: int): (r: Option<string>)
    ensures r.None? <==> lines == []
  {
    if lines == [] then None else Some(lines[ActiveIndex(lines, t)].text)
  }

  /** Where the cursor is after looking up `t`: unchanged when there are no lines. */
  function CursorAfter(lines: seq<LyricLine>, cursor: nat, t: int): (c: nat)
    ensures lines != [] ==> c < |lines| && CurrentLyric(lines, t) == Some(lines[c].text)
  {
    if lines == [] then cursor else ActiveIndex(lines, t)
  }

  /** The text after the cursor, or nothing at or past the last line. */
  function NextLyric(lines: seq<LyricLine>, cursor: nat): (r: Option<string>)
    ensures r.Some? <==> cursor + 1 < |lines|
    ensures r.Some? ==> r.value == lines[cursor + 1].text
  {
    if lines == [] || cursor >= |lines| - 1 then None else Some(lines[cursor + 1].text)
  }

  /** The text before the cursor, or nothing at the first line. */
  function PreviousLyric(lines: seq<LyricLine>, cursor: nat): (r: Option<string>)
    requires cursor <= |lines|
    ensures r.Some? <==> 0 < cursor
    ensures r.Some? ==> r.value == lines[cursor - 1].text
  {
    if lines == [] || cursor <= 0 then None else Some(lines[cursor - 1].text)
  }

  /** The active index depends only on the lines and the time, so looking up the same time again lands on the same line. */
  lemma LookupIdempotent(lines: seq<LyricLine>, cursor: nat, t: int)
    ensures CursorAfter(lines, CursorAfter(lines, cursor, t), t) == CursorAfter(lines, cursor, t)
  {
  }

  /** On sorted lines a time before the first timestamp selects the last line. */
  lemma BeforeFirstSelectsLast(lines: seq<LyricLine>, t: int)
    requires lines != [] && SortedByTime(lines)
    requires t < lines[0].time
    ensures ActiveIndex(lines, t) == |lines| - 1
  {
  }

  /**
   * On sorted lines and from the first timestamp on, the active line is the
   * last line whose time is not after `t`.
   */
  lemma {:induction false} ActiveIsLastStarted(lines: seq<LyricLine>, t: int)
    requires lines != [] && SortedByTime(lines)
    requires lines[0].time <= t
    ensures lines[ActiveIndex(lines, t)].time <= t
    ensures forall j :: ActiveIndex(lines, t) < j < |lines| ==> t < lines[j].time
  {
    var i := ActiveIndex(lines, t);
    var k := 0;
    while k < i
      invariant 0 <= k <= i
      invariant lines[k].time <= t
    {
      assert !InSpan(lines, k, t);
      k := k + 1;
    }
    if i < |lines| - 1 {
      assert t < lines[i + 1].time;
      forall j | i < j < |lines| ensures t < lines[j].time {
        assert lines[i + 1].time <= lines[j].time;
      }
    }
  }
}
