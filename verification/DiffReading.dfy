/** How the parser reads the lines git prints: line kinds, hunk headers and hunk bodies. */
module DiffReading {
  import opened JsText
  import opened GitPath
  import opened DiffParser
  import opened GitDiff

  // ---------------------------------------------------------------- feeding printed lines

  /** The parser's steps on lines that still have their carriage returns. */
  function Feed(s: State, lines: seq<string>): State
    decreases |lines|
  {
    if lines == [] then s else Feed(Step(s, StripCr(lines[0])), lines[1..])
  }

  lemma {:induction false} FeedAppend(s: State, xs: seq<string>, ys: seq<string>)
    ensures Feed(s, xs + ys) == Feed(Feed(s, xs), ys)
    decreases |xs|
  {
    hide Step;
    if xs == [] {
      assert xs + ys == ys;
    } else {
      assert (xs + ys)[0] == xs[0] && (xs + ys)[1..] == xs[1..] + ys;
      FeedAppend(Step(s, StripCr(xs[0])), xs[1..], ys);
    }
  }

  lemma FeedOne(s: State, line: string)
    ensures Feed(s, [line]) == Step(s, StripCr(line))
  {
    assert [line][1..] == [];
  }

  predicate Rows(lines: seq<string>) {
    forall l <- lines :: '\n' !in l
  }

  lemma LinesOfRow(line: string, rest: string)
    requires '\n' !in line
    ensures Lines(line + "\n" + rest) == [StripCr(line)] + Lines(rest)
  {
    hide StripCr;
    var text := line + "\n" + rest;
    assert text[..|line|] == line && text[|line|] == '\n' && text[|line| + 1..] == rest;
    FindIs(text, '\n', |line|);
  }

  /** Splitting joined rows gives the rows back, and an empty line at the end. */
  lemma {:induction false} StepsOfJoin(s: State, lines: seq<string>)
    requires Rows(lines)
    ensures Steps(s, Lines(Join(lines))) == Step(Feed(s, lines), "")
    decreases |lines|
  {
    hide Step;
    hide Lines;
    if lines == [] {
      LinesOfNothing();
      assert Steps(s, [""]) == Step(s, "");
    } else {
      assert lines[0] in lines;
      LinesOfRow(lines[0], Join(lines[1..]));
      StepsCons(s, StripCr(lines[0]), Lines(Join(lines[1..])));
      StepsOfJoin(Step(s, StripCr(lines[0])), lines[1..]);
    }
  }

  lemma LinesOfNothing()
    ensures Lines("") == [""]
  {
  }

  lemma StepsCons(s: State, line: string, rest: seq<string>)
    ensures Steps(s, [line] + rest) == Steps(Step(s, line), rest)
  {
    hide Step;
    assert ([line] + rest)[1..] == rest;
  }

  // ---------------------------------------------------------------- what kind of line it is

  lemma PrefixChar(line: string, prefix: string, k: nat)
    requires k < |prefix| && k < |line|
    ensures StartsWith(line, prefix) ==> line[k] == prefix[k]
  {
    if StartsWith(line, prefix) {
      assert line[..|prefix|][k] == line[k];
    }
  }

  /** Body lines and hunk headers pass all tests for extended headers. */
  lemma NoExtendedHeader(line: string)
    requires line != "" ==> line[0] in "@ \\+-"
    ensures Extended(line).None?
  {
    hide StartsWith;
    if StartsWith(line, "diff --git ") || StartsWith(line, "old mode ") || StartsWith(line, "new mode ")
      || StartsWith(line, "deleted file mode ") || StartsWith(line, "new file mode ")
      || StartsWith(line, "rename from ") || StartsWith(line, "rename to ") || StartsWith(line, "copy from ")
      || StartsWith(line, "copy to ") || StartsWith(line, "similarity index ")
      || StartsWith(line, "dissimilarity index ") || StartsWith(line, "index ") || StartsWith(line, "Binary files ")
    {
      assert false;
    }
  }

  /** A header test takes the line although it belongs to the hunk. */
  predicate Confusable(l: GitLine) {
    (l.kind == Del && StartsWith(l.text, "-- ")) || (l.kind == Add && StartsWith(l.text, "++ "))
  }

  lemma MarkerAndText(l: GitLine)
    ensures StripCr([MarkerOf(l.kind)] + l.text) == [MarkerOf(l.kind)] + StripCr(l.text)
  {
    StripCrOfTail([MarkerOf(l.kind)], l.text);
  }

  lemma ConfusedByPrefix(m: char, text: string, p: string)
    requires |p| == 4 && p[0] == m && p[3] == ' ' && m != '\r'
    ensures StartsWith([m] + StripCr(text), p) <==> StartsWith(text, p[1..])
  {
    var t := StripCr(text);
    var line := [m] + t;
    assert |t| >= 3 ==> t[..3] == text[..3] && line[..4] == [m] + t[..3];
    assert p == [m] + p[1..];
    if StartsWith(text, p[1..]) {
      assert text[..3][2] == ' ';
      assert |text| == 3 ==> text[2..] == " ";
    }
    if StartsWith(line, p) {
      assert line[..4][1..] == t[..3];
    }
  }

  lemma BodyLineKind(l: GitLine)
    ensures
      var kind := Classify(StripCr([MarkerOf(l.kind)] + l.text));
      if Confusable(l) then kind.OldSide? || kind.NewSide? else kind == Marked(l.kind, StripCr(l.text))
  {
    hide StripCr;
    hide AbPath;
    hide StartsWith;
    var m, text := MarkerOf(l.kind), StripCr(l.text);
    var line := [m] + text;
    MarkerAndText(l);
    NoExtendedHeader(line);
    FirstCharDecides(line);
    assert line[1..] == text;
    if l.kind == Del {
      ConfusedByPrefix(m, l.text, "--- ");
    } else if l.kind == Add {
      ConfusedByPrefix(m, l.text, "+++ ");
    }
    hide Extended;
  }

  lemma FirstCharDecides(line: string)
    requires line != ""
    ensures line[0] != '-' ==> !StartsWith(line, "--- ")
    ensures line[0] != '+' ==> !StartsWith(line, "+++ ")
    ensures line[0] != '@' ==> TakeHunkHeader(line).None?
  {
  }

  lemma NoNewlineKind()
    ensures StripCr(NO_NEWLINE_ROW) == NO_NEWLINE_ROW && Classify(NO_NEWLINE_ROW) == NoNewline
  {
    var line := NO_NEWLINE_ROW;
    assert line[0] == '\\';
    NoExtendedHeader(line);
    FirstCharDecides(line);
    assert line[|line| - 1..] == "e";
    hide Extended;
  }

  // ---------------------------------------------------------------- hunk headers

  lemma {:induction false} DigitRunIs(digits: string, rest: string)
    requires AllDigits(digits) && (rest != "" ==> !IsDigit(rest[0]))
    ensures DigitRun(digits + rest) == |digits|
    ensures (digits + rest)[..|digits|] == digits && (digits + rest)[|digits|..] == rest
    decreases |digits|
  {
    if digits == "" {
      assert digits + rest == rest;
    } else {
      assert (digits + rest)[1..] == digits[1..] + rest;
      DigitRunIs(digits[1..], rest);
    }
  }

  lemma {:induction false} NumberOfDecimal(n: nat)
    ensures NumberOf(Decimal(n)) == n
  {
    if n >= 10 {
      NumberOfDecimal(n / 10);
      var s := Decimal(n);
      assert s[..|s| - 1] == Decimal(n / 10);
    } else {
      assert Decimal(n)[..0] == "";
    }
  }

  lemma RangeIsTaken(start: nat, count: nat, rest: string)
    requires rest != "" && rest[0] == ' '
    ensures TakeRange(PrintRange(start, count) + rest)
      == Some((Range(start, if count == 1 then None else Some(count)), rest))
  {
    hide Decimal;
    hide DigitRun;
    hide NumberOf;
    hide StartsWith;
    var n, m := Decimal(start), Decimal(count);
    NumberOfDecimal(start);
    if count == 1 {
      DigitRunIs(n, rest);
    } else {
      var tail := "," + (m + rest);
      assert PrintRange(start, count) + rest == n + tail;
      DigitRunIs(n, tail);
      assert tail[1..] == m + rest && tail[..1] == ",";
      PrefixThenRest(",", m + rest);
      DigitRunIs(m, rest);
      NumberOfDecimal(count);
    }
  }

  /** A printed hunk header with any text after it. */
  function HeaderWith(h: GitHunk, section: string): string {
    "@@ -" + (PrintRange(h.oldStart, h.oldLines)
              + (" +" + (PrintRange(h.newStart, h.newLines) + (" @@" + section))))
  }

  lemma HeaderShape(h: GitHunk)
    ensures PrintHunkHeader(h) == HeaderWith(h, h.section)
    ensures StripCr(PrintHunkHeader(h)) == HeaderWith(h, StripCr(h.section))
  {
    hide PrintRange;
    var head := "@@ -" + PrintRange(h.oldStart, h.oldLines) + " +" + PrintRange(h.newStart, h.newLines) + " @@";
    assert forall s :: HeaderWith(h, s) == head + s;
    StripCrOfTail(head, h.section);
  }

  lemma StripCrOfTail(head: string, tail: string)
    requires head != "" && head[|head| - 1] != '\r'
    ensures StripCr(head + tail) == head + StripCr(tail)
  {
    var s := head + tail;
    if tail != "" {
      assert s[|s| - 1..] == tail[|tail| - 1..];
      assert s[..|s| - 1] == head + tail[..|tail| - 1];
    } else {
      assert s == head;
      assert s[|s| - 1..][0] == head[|head| - 1];
    }
  }

  lemma HeaderIsTaken(h: GitHunk, section: string)
    ensures TakeHunkHeader(HeaderWith(h, section)) ==
      if OneLine(section) then
        Some((Range(h.oldStart, if h.oldLines == 1 then None else Some(h.oldLines)),
              Range(h.newStart, if h.newLines == 1 then None else Some(h.newLines))))
      else None
  {
    hide PrintRange;
    hide TakeRange;
    hide OneLine;
    hide StartsWith;
    var tail := " @@" + section;
    var right := PrintRange(h.newStart, h.newLines) + tail;
    var middle := " +" + right;
    PrefixThenRest("@@ -", PrintRange(h.oldStart, h.oldLines) + middle);
    RangeIsTaken(h.oldStart, h.oldLines, middle);
    PrefixThenRest(" +", right);
    RangeIsTaken(h.newStart, h.newLines, tail);
    PrefixThenRest(" @@", section);
  }

  /** The header test takes the line: only a trailing carriage return is forgiven. */
  predicate HeaderMatches(h: GitHunk) {
    OneLine(StripCr(h.section))
  }

  function OpenedFor(h: GitHunk): OpenHunk {
    OpenHunk(
      DiffHunk(StripCr(PrintHunkHeader(h)), h.oldStart, h.oldLines, h.newStart, h.newLines, []),
      h.oldStart, h.newStart)
  }

  lemma FeedHunkHeader(s: State, h: GitHunk)
    requires s.draft.Some?
    ensures Feed(s, [PrintHunkHeader(h)]) ==
      if HeaderMatches(h) then FlushHunk(s).(hunk := Some(OpenedFor(h))) else FlushHunk(s)
  {
    hide FlushHunk;
    hide StripCr;
    hide TakeHunkHeader;
    hide OneLine;
    FeedOne(s, PrintHunkHeader(h));
    HeaderShape(h);
    var line := HeaderWith(h, StripCr(h.section));
    assert line[0] == '@';
    NoExtendedHeader(line);
    FirstCharDecides(line);
    HeaderIsTaken(h, StripCr(h.section));
    hide Extended;
    hide HeaderWith;
    hide StartsWith;
  }

  // ---------------------------------------------------------------- hunk bodies

  /** What one printed line does to the open hunk. */
  function BodyLine(o: OpenHunk, l: GitLine): OpenHunk {
    var pushed := if Confusable(l) then o else Push(o, l.kind, StripCr(l.text));
    if l.noNewline then MarkLast(pushed) else pushed
  }

  function Body(o: OpenHunk, lines: seq<GitLine>): OpenHunk
    decreases |lines|
  {
    if lines == [] then o else Body(BodyLine(o, lines[0]), lines[1..])
  }

  /** The paths may differ, nothing else. */
  predicate SameButPaths(d: Draft, e: Draft) {
    e == d.(oldPath := e.oldPath, newPath := e.newPath)
  }

  predicate NoneConfusable(lines: seq<GitLine>) {
    forall l <- lines :: !Confusable(l)
  }

  lemma FeedLine(s: State, l: GitLine) returns (e: Draft)
    requires s.draft.Some?
    ensures SameButPaths(s.draft.value, e) && (!Confusable(l) ==> e == s.draft.value)
    ensures Feed(s, PrintLine(l)) ==
      s.(draft := Some(e), hunk := if s.hunk.Some? then Some(BodyLine(s.hunk.value, l)) else None)
  {
    hide Classify;
    hide Push;
    hide MarkLast;
    hide StripCr;
    var row := [MarkerOf(l.kind)] + l.text;
    BodyLineKind(l);
    var s1 := Step(s, StripCr(row));
    FeedOne(s, row);
    if Confusable(l) {
      e := Header(s.draft.value, Classify(StripCr(row)));
    } else {
      e := s.draft.value;
    }
    if l.noNewline {
      FeedAppend(s, [row], [NO_NEWLINE_ROW]);
      FeedOne(s1, NO_NEWLINE_ROW);
      NoNewlineKind();
    } else {
      assert PrintLine(l) == [row];
    }
  }

  lemma {:induction false} FeedLines(s: State, lines: seq<GitLine>) returns (e: Draft)
    requires s.draft.Some?
    ensures SameButPaths(s.draft.value, e) && (NoneConfusable(lines) ==> e == s.draft.value)
    ensures Feed(s, PrintLines(lines)) ==
      s.(draft := Some(e), hunk := if s.hunk.Some? then Some(Body(s.hunk.value, lines)) else None)
    decreases |lines|
  {
    hide Feed;
    hide PrintLine;
    hide Confusable;
    hide BodyLine;
    if lines == [] {
      e := s.draft.value;
      FeedNothing(s);
    } else {
      var d := FeedLine(s, lines[0]);
      FeedAppend(s, PrintLine(lines[0]), PrintLines(lines[1..]));
      e := FeedLines(Feed(s, PrintLine(lines[0])), lines[1..]);
    }
  }

  lemma FeedNothing(s: State)
    ensures Feed(s, []) == s
  {
  }

  function ParsedHunk(h: GitHunk): DiffHunk {
    Body(OpenedFor(h), h.lines).hunk
  }

  /** Hunks whose header the parser does not take are lost. */
  function ParsedHunks(hunks: seq<GitHunk>): seq<DiffHunk> {
    if hunks == [] then []
    else (if HeaderMatches(hunks[0]) then [ParsedHunk(hunks[0])] else []) + ParsedHunks(hunks[1..])
  }

  predicate CleanHunks(hunks: seq<GitHunk>) {
    forall h <- hunks :: CleanHunk(h)
  }

  /** Some hunks more, and perhaps other paths. */
  predicate Extends(d: Draft, e: Draft, more: seq<DiffHunk>) {
    SameButPaths(d.(hunks := d.hunks + more), e)
  }

  lemma ExtendsTwice(d: Draft, e: Draft, f: Draft, xs: seq<DiffHunk>, ys: seq<DiffHunk>)
    requires Extends(d, e, xs) && Extends(e, f, ys)
    ensures Extends(d, f, xs + ys)
  {
    assert d.hunks + xs + ys == d.hunks + (xs + ys);
  }

  lemma ExtendsByNothing(d: Draft)
    ensures Extends(d, d, [])
  {
    assert d.hunks + [] == d.hunks;
  }

  /** The draft once its open hunk is closed. */
  function Closed(s: State): Draft
    requires s.draft.Some?
  {
    FlushHunk(s).draft.value
  }

  lemma FeedHunk(s: State, h: GitHunk) returns (e: Draft)
    requires s.draft.Some?
    ensures var t := Feed(s, PrintHunk(h));
      t.files == s.files && t.draft.Some? && Closed(t) == e
    ensures Extends(Closed(s), e, if HeaderMatches(h) then [ParsedHunk(h)] else [])
    ensures CleanHunk(h) ==> e.oldPath == s.draft.value.oldPath && e.newPath == s.draft.value.newPath
  {
    hide Feed;
    hide HeaderMatches;
    hide OpenedFor;
    hide Body;
    hide Confusable;
    FeedAppend(s, [PrintHunkHeader(h)], PrintLines(h.lines));
    FeedHunkHeader(s, h);
    var s1 := Feed(s, [PrintHunkHeader(h)]);
    var d := FeedLines(s1, h.lines);
    var t := Feed(s, PrintHunk(h));
    e := Closed(t);
    assert Closed(s).hunks + [] == Closed(s).hunks;
    if CleanHunk(h) {
      CleanIsNotConfusable(h);
    }
  }

  lemma CleanIsNotConfusable(h: GitHunk)
    requires CleanHunk(h)
    ensures NoneConfusable(h.lines)
  {
  }

  lemma {:induction false} FeedHunks(s: State, hunks: seq<GitHunk>) returns (e: Draft)
    requires s.draft.Some?
    ensures var t := Feed(s, PrintHunks(hunks));
      t.files == s.files && t.draft.Some? && Closed(t) == e
    ensures Extends(Closed(s), e, ParsedHunks(hunks))
    ensures CleanHunks(hunks) ==> e.oldPath == s.draft.value.oldPath && e.newPath == s.draft.value.newPath
    decreases |hunks|
  {
    hide Feed;
    hide PrintHunk;
    hide HeaderMatches;
    hide ParsedHunk;
    hide CleanHunk;
    hide Closed;
    hide Extends;
    ClosedKeepsPaths(s);
    if hunks == [] {
      FeedNothing(s);
      e := Closed(s);
      ExtendsByNothing(e);
    } else {
      var d := FeedHunk(s, hunks[0]);
      FeedAppend(s, PrintHunk(hunks[0]), PrintHunks(hunks[1..]));
      var s1 := Feed(s, PrintHunk(hunks[0]));
      ClosedKeepsPaths(s1);
      e := FeedHunks(s1, hunks[1..]);
      var first := if HeaderMatches(hunks[0]) then [ParsedHunk(hunks[0])] else [];
      ExtendsTwice(Closed(s), d, e, first, ParsedHunks(hunks[1..]));
    }
  }

  lemma ClosedKeepsPaths(s: State)
    requires s.draft.Some?
    ensures Closed(s).oldPath == s.draft.value.oldPath && Closed(s).newPath == s.draft.value.newPath
  {
  }

  // ---------------------------------------------------------------- hunks come back exactly when clean

  lemma {:induction false} BodyKeepsEarlierText(o: OpenHunk, lines: seq<GitLine>)
    ensures
      var after := Body(o, lines).hunk;
      && after == o.hunk.(lines := after.lines)
      && |o.hunk.lines| <= |after.lines| <= |o.hunk.lines| + |lines|
      && forall k | 0 <= k < |o.hunk.lines| :: after.lines[k].text == o.hunk.lines[k].text
    decreases |lines|
  {
    if lines != [] {
      hide Confusable;
      hide StripCr;
      BodyKeepsEarlierText(BodyLine(o, lines[0]), lines[1..]);
    }
  }

  function Rest(o: OpenHunk, lines: seq<GitLine>): seq<DiffLine> {
    o.hunk.lines + ExpectedLines(o.oldNext, o.newNext, lines)
  }

  lemma CleanLineIsPushed(o: OpenHunk, lines: seq<GitLine>)
    requires lines != [] && CleanLine(lines[0])
    ensures Rest(BodyLine(o, lines[0]), lines[1..]) == Rest(o, lines)
  {
    hide StartsWith;
    hide EndsWith;
    var l := lines[0];
    assert !Confusable(l) && StripCr(l.text) == l.text;
  }

  lemma {:induction false} ExpectedLength(oldNext: int, newNext: int, lines: seq<GitLine>)
    ensures |ExpectedLines(oldNext, newNext, lines)| == |lines|
    ensures lines != [] ==> ExpectedLines(oldNext, newNext, lines)[0].text == lines[0].text
    decreases |lines|
  {
    if lines != [] {
      var l := lines[0];
      ExpectedLength(
        oldNext + (if l.kind == Add then 0 else 1), newNext + (if l.kind == Del then 0 else 1), lines[1..]);
    }
  }

  lemma UncleanLineShows(o: OpenHunk, lines: seq<GitLine>)
    requires lines != [] && !CleanLine(lines[0])
    ensures Body(o, lines).hunk.lines != Rest(o, lines)
  {
    hide StartsWith;
    hide ExpectedLines;
    var l, n := lines[0], |o.hunk.lines|;
    var o1 := BodyLine(o, l);
    BodyKeepsEarlierText(o1, lines[1..]);
    ExpectedLength(o.oldNext, o.newNext, lines);
    if !Confusable(l) {
      assert EndsWith(l.text, "\r");
      assert o1.hunk.lines[n].text == StripCr(l.text);
      assert |StripCr(l.text)| < |l.text|;
      assert Rest(o, lines)[n].text == l.text;
    }
  }

  predicate AllClean(lines: seq<GitLine>) {
    forall l <- lines :: CleanLine(l)
  }

  lemma AllCleanCons(lines: seq<GitLine>)
    requires lines != []
    ensures AllClean(lines) <==> CleanLine(lines[0]) && AllClean(lines[1..])
  {
    hide CleanLine;
    assert lines == [lines[0]] + lines[1..];
    assert forall l <- lines[1..] :: l in lines;
  }

  /** The hunk gets all its lines exactly when every one is clean. */
  lemma {:induction false} BodyIsExpectedIff(o: OpenHunk, lines: seq<GitLine>)
    ensures Body(o, lines).hunk.lines == Rest(o, lines) <==> AllClean(lines)
    decreases |lines|
  {
    hide CleanLine;
    if lines == [] {
      assert o.hunk.lines + [] == o.hunk.lines;
    } else {
      hide BodyLine;
      hide ExpectedLines;
      AllCleanCons(lines);
      if CleanLine(lines[0]) {
        CleanLineIsPushed(o, lines);
        BodyIsExpectedIff(BodyLine(o, lines[0]), lines[1..]);
      } else {
        UncleanLineShows(o, lines);
      }
    }
  }

  lemma HunkIsExpectedIff(h: GitHunk)
    requires HeaderMatches(h)
    ensures ParsedHunk(h) == ExpectedHunk(h) <==> CleanHunk(h)
  {
    hide CleanLine;
    hide Body;
    hide ExpectedLines;
    hide PrintHunkHeader;
    hide StripCr;
    hide OneLine;
    var o := OpenedFor(h);
    BodyIsExpectedIff(o, h.lines);
    BodyKeepsEarlierText(o, h.lines);
    assert [] + ExpectedLines(h.oldStart, h.newStart, h.lines) == ExpectedLines(h.oldStart, h.newStart, h.lines);
    SectionIsOneLineIff(h);
  }

  lemma SectionIsOneLineIff(h: GitHunk)
    ensures OneLine(h.section) <==> HeaderMatches(h) && StripCr(PrintHunkHeader(h)) == PrintHunkHeader(h)
  {
    hide PrintRange;
    HeaderShape(h);
    var s := h.section;
    if EndsWith(s, "\r") {
      assert s[|s| - 1] == '\r' && s[|s| - 1] in s;
      assert BreaksLine('\r');
      assert |HeaderWith(h, StripCr(s))| < |HeaderWith(h, s)|;
    }
  }

  lemma {:induction false} LostHunksShow(hunks: seq<GitHunk>)
    ensures |ParsedHunks(hunks)| <= |hunks| == |ExpectedHunks(hunks)|
  {
    hide HeaderMatches;
    hide ParsedHunk;
    hide ExpectedHunk;
    if hunks != [] {
      LostHunksShow(hunks[1..]);
    }
  }

  /** All hunks come back exactly when every one is clean. */
  lemma {:induction false} HunksAreExpectedIff(hunks: seq<GitHunk>)
    ensures ParsedHunks(hunks) == ExpectedHunks(hunks) <==> CleanHunks(hunks)
  {
    hide HeaderMatches;
    hide ParsedHunk;
    hide ExpectedHunk;
    hide CleanHunk;
    if hunks != [] {
      var h, rest := hunks[0], hunks[1..];
      LostHunksShow(rest);
      HunksAreExpectedIff(rest);
      CleanHunksCons(hunks);
      if HeaderMatches(h) {
        HunkIsExpectedIff(h);
        ConsEqual(ParsedHunk(h), ParsedHunks(rest), ExpectedHunk(h), ExpectedHunks(rest));
      } else {
        CleanHeaderMatches(h);
      }
    }
  }

  lemma ConsEqual(x: DiffHunk, xs: seq<DiffHunk>, y: DiffHunk, ys: seq<DiffHunk>)
    ensures [x] + xs == [y] + ys <==> x == y && xs == ys
  {
    assert ([x] + xs)[0] == x && ([x] + xs)[1..] == xs;
    assert ([y] + ys)[0] == y && ([y] + ys)[1..] == ys;
  }

  lemma CleanHeaderMatches(h: GitHunk)
    ensures CleanHunk(h) ==> HeaderMatches(h)
  {
    SectionIsOneLineIff(h);
  }

  lemma CleanHunksCons(hunks: seq<GitHunk>)
    requires hunks != []
    ensures CleanHunks(hunks) <==> CleanHunk(hunks[0]) && CleanHunks(hunks[1..])
  {
    hide CleanHunk;
    assert hunks == [hunks[0]] + hunks[1..];
    assert forall h <- hunks[1..] :: h in hunks;
  }
}
