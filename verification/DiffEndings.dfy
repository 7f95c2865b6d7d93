/** What the parser makes of line endings, over every text. */
module DiffEndings {
  import opened JsText
  import opened DiffParser
  import opened GitDiff
  import DiffRoundTrip

  /** A line of a text: what it says, and whether a carriage return stands before its newline. */
  datatype TextLine = TextLine(says: string, crlf: bool)

  function Ending(crlf: bool): string {
    if crlf then "\r" else ""
  }

  /** One carriage return at the end of a line belongs to its ending. */
  predicate WellSplit(l: TextLine) {
    '\n' !in l.says && (!l.crlf && l.says != "" ==> l.says[|l.says| - 1] != '\r')
  }

  predicate AllWellSplit(lines: seq<TextLine>) {
    forall l <- lines :: WellSplit(l)
  }

  /** Every line with its newline, and the last one without. */
  function Text(lines: seq<TextLine>, last: TextLine): string {
    if lines == [] then last.says + Ending(last.crlf)
    else lines[0].says + Ending(lines[0].crlf) + "\n" + Text(lines[1..], last)
  }

  function Says(lines: seq<TextLine>): seq<string> {
    if lines == [] then [] else [lines[0].says] + Says(lines[1..])
  }

  lemma OneLineSplits(l: TextLine, rest: string)
    requires WellSplit(l)
    ensures var text := l.says + Ending(l.crlf) + "\n" + rest;
      && Find(text, '\n') == |l.says + Ending(l.crlf)| && text[..Find(text, '\n')] == l.says + Ending(l.crlf)
      && text[Find(text, '\n') + 1..] == rest
  {
    var line := l.says + Ending(l.crlf);
    var text := line + "\n" + rest;
    assert '\n' !in line;
    FindIs(text, '\n', |line|);
    assert text[..|line|] == line && text[|line| + 1..] == rest;
  }

  lemma EndingIsDropped(l: TextLine)
    requires WellSplit(l)
    ensures StripCr(l.says + Ending(l.crlf)) == l.says
  {
    var line := l.says + Ending(l.crlf);
    if l.crlf {
      assert line[|line| - 1..] == "\r" && line[..|line| - 1] == l.says;
    } else {
      assert line == l.says;
      assert line != "" ==> line[|line| - 1..][0] == line[|line| - 1];
    }
  }

  lemma LastLineSplits(l: TextLine)
    requires WellSplit(l)
    ensures Lines(l.says + Ending(l.crlf)) == [l.says]
  {
    var line := l.says + Ending(l.crlf);
    assert '\n' !in line;
    FindIs(line, '\n', |line|);
    EndingIsDropped(l);
  }

  lemma {:induction false} LinesAreWhatIsSaid(lines: seq<TextLine>, last: TextLine)
    requires AllWellSplit(lines) && WellSplit(last)
    ensures Lines(Text(lines, last)) == Says(lines) + [last.says]
  {
    if lines == [] {
      LastLineSplits(last);
    } else {
      OneLineSplits(lines[0], Text(lines[1..], last));
      EndingIsDropped(lines[0]);
      LinesAreWhatIsSaid(lines[1..], last);
      hide StripCr;
      hide Find;
    }
  }

  /** The parser sees what the lines say and nothing of how they end: feeding it those lines one by
      one gives the same files, whichever of them have a carriage return before the newline. */
  lemma EndingsDoNotMatter(lines: seq<TextLine>, last: TextLine)
    requires AllWellSplit(lines) && WellSplit(last)
    ensures Parsed(Text(lines, last)) == Result(FlushDraft(Steps(START, Says(lines) + [last.says])).files)
  {
    LinesAreWhatIsSaid(lines, last);
    hide Lines;
    hide Text;
  }

  /** Every text is such a series of lines. */
  lemma {:induction false} EveryTextIsSplit(text: string) returns (lines: seq<TextLine>, last: TextLine)
    ensures AllWellSplit(lines) && WellSplit(last) && Text(lines, last) == text
    decreases |text|
  {
    var n := Find(text, '\n');
    FindSplits(text, n);
    var l := Split(text[..n]);
    if n == |text| {
      lines, last := [], l;
    } else {
      var more;
      more, last := EveryTextIsSplit(text[n + 1..]);
      lines := [l] + more;
      assert lines[1..] == more;
      assert text == text[..n] + "\n" + text[n + 1..];
    }
  }

  lemma FindSplits(text: string, n: nat)
    requires n == Find(text, '\n')
    ensures n <= |text| && '\n' !in text[..n] && (n < |text| ==> text[n] == '\n')
  {
  }

  lemma Split(line: string) returns (l: TextLine)
    requires '\n' !in line
    ensures WellSplit(l) && l.says + Ending(l.crlf) == line
  {
    if line != "" && line[|line| - 1] == '\r' {
      l := TextLine(line[..|line| - 1], true);
    } else {
      l := TextLine(line, false);
    }
  }

  // ---------------------------------------------------------------- printed files with either ending

  function WithEnding(rows: seq<string>, crlf: bool): seq<TextLine> {
    if rows == [] then [] else [TextLine(rows[0], crlf)] + WithEnding(rows[1..], crlf)
  }

  predicate NoneEndsInCr(rows: seq<string>) {
    forall row <- rows :: row != "" ==> row[|row| - 1] != '\r'
  }

  /** These rows stay on their lines when they get this ending. */
  predicate Fit(rows: seq<string>, crlf: bool) {
    (forall row <- rows :: '\n' !in row) && (crlf || NoneEndsInCr(rows))
  }

  lemma FitCons(rows: seq<string>, crlf: bool)
    requires rows != [] && Fit(rows, crlf)
    ensures Fit(rows[1..], crlf) && WellSplit(TextLine(rows[0], crlf))
  {
    assert rows[0] in rows && forall row <- rows[1..] :: row in rows;
  }

  lemma SplitCons(l: TextLine, lines: seq<TextLine>)
    requires WellSplit(l) && AllWellSplit(lines)
    ensures AllWellSplit([l] + lines) && Says([l] + lines) == [l.says] + Says(lines)
  {
    assert ([l] + lines)[1..] == lines;
    hide WellSplit;
  }

  lemma {:induction false} WithEndingSplits(rows: seq<string>, crlf: bool)
    requires Fit(rows, crlf)
    ensures AllWellSplit(WithEnding(rows, crlf)) && Says(WithEnding(rows, crlf)) == rows
  {
    if rows != [] {
      FitCons(rows, crlf);
      WithEndingSplits(rows[1..], crlf);
      hide Fit;
      hide WellSplit;
      hide AllWellSplit;
      SplitCons(TextLine(rows[0], crlf), WithEnding(rows[1..], crlf));
      hide Says;
      assert [rows[0]] + rows[1..] == rows;
    }
  }

  lemma {:induction false} JoinIsText(rows: seq<string>)
    ensures Join(rows) == Text(WithEnding(rows, false), TextLine("", false))
  {
    if rows != [] {
      JoinIsText(rows[1..]);
      assert WithEnding(rows, false)[1..] == WithEnding(rows[1..], false);
      assert rows[0] + "" == rows[0];
    }
  }

  /** The diff of files with carriage returns: whichever of the printed lines have one before their
      newline, parsing gives the files with the lines less that one carriage return, exactly when
      it does so without any. */
  lemma RoundTripWithReturnsIff(files: seq<GitFile>, lines: seq<TextLine>)
    requires AllWellSplit(lines) && Says(lines) == PrintFiles(files) && NoneEndsInCr(PrintFiles(files))
    ensures Parsed(Text(lines, TextLine("", false))) == Result(ExpectedFiles(files)) <==>
      DiffRoundTrip.AllFaithful(files)
  {
    var rows := PrintFiles(files);
    assert Print(files) == Join(rows);
    DiffRoundTrip.FilesAreRows(files);
    hide PrintFiles;
    WithEndingSplits(rows, false);
    JoinIsText(rows);
    EndingsDoNotMatter(lines, TextLine("", false));
    EndingsDoNotMatter(WithEnding(rows, false), TextLine("", false));
    DiffRoundTrip.ParseUndoesPrintIff(files);
    hide Parsed;
    hide Text;
    hide Print;
    hide ExpectedFiles;
    hide DiffRoundTrip.AllFaithful;
  }
}
