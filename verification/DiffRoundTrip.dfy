/** Parsing undoes printing, exactly for the faithful files. */
module DiffRoundTrip {
  import opened JsText
  import opened GitPath
  import opened DiffParser
  import opened GitDiff
  import opened DiffReading
  import opened DiffNames
  import DiffGitLine

  // ---------------------------------------------------------------- header lines

  lemma Kept(line: string)
    requires line != "" && line[|line| - 1] != '\r'
    ensures StripCr(line) == line
  {
  }

  lemma PlainLineKept(prefix: string, rest: string)
    requires prefix != "" && prefix[|prefix| - 1] != '\r' && (rest != "" ==> rest[|rest| - 1] != '\r')
    ensures StripCr(prefix + rest) == prefix + rest
  {
    Kept(prefix + rest);
  }

  lemma DigitsAreTrimmed(mode: Mode)
    ensures Trim(mode) == mode && (mode != "" ==> mode[|mode| - 1] != '\r')
  {
    TrimmedIsFixed(mode);
    if mode != "" {
      assert IsDigit(mode[0]) && IsDigit(mode[|mode| - 1]);
    }
    hide Trim;
  }

  lemma ModeLines(mode: Mode)
    ensures Classify(StripCr("old mode " + mode)) == OldMode(mode)
    ensures Classify(StripCr("new mode " + mode)) == NewMode(mode)
  {
    hide Trim;
    hide StripCr;
    hide StartsWith;
    DigitsAreTrimmed(mode);
    PlainLineKept("old mode ", mode);
    PlainLineKept("new mode ", mode);
    PrefixThenRest("old mode ", mode);
    PrefixThenRest("new mode ", mode);
  }

  lemma FileModeLines(mode: Mode)
    ensures Classify(StripCr("new file mode " + mode)) == NewFileMode(mode)
    ensures Classify(StripCr("deleted file mode " + mode)) == DeletedFileMode(mode)
  {
    hide Trim;
    hide StripCr;
    hide StartsWith;
    DigitsAreTrimmed(mode);
    PlainLineKept("new file mode ", mode);
    PlainLineKept("deleted file mode ", mode);
    PrefixThenRest("new file mode ", mode);
    PrefixThenRest("deleted file mode ", mode);
    PrefixChar("new file mode " + mode, "new mode ", 4);
    PrefixChar("deleted file mode " + mode, "diff --git ", 1);
  }

  lemma RenameLines(name: string)
    requires Plain(name)
    ensures Classify(StripCr("rename from " + name)) == RenameFrom(Unquoted(name))
    ensures Classify(StripCr("rename to " + name)) == RenameTo(Unquoted(name))
  {
    hide Unquoted;
    hide StripCr;
    hide StartsWith;
    PlainHasNoBreak(name);
    PlainLineKept("rename from ", name);
    PlainLineKept("rename to ", name);
    PrefixThenRest("rename from ", name);
    PrefixThenRest("rename to ", name);
    PrefixChar("rename to " + name, "rename from ", 7);
  }

  lemma CopyLines(name: string)
    requires Plain(name)
    ensures Classify(StripCr("copy from " + name)) == CopyFrom(Unquoted(name))
    ensures Classify(StripCr("copy to " + name)) == CopyTo(Unquoted(name))
  {
    hide Unquoted;
    hide StripCr;
    hide StartsWith;
    PlainHasNoBreak(name);
    PlainLineKept("copy from ", name);
    PlainLineKept("copy to ", name);
    PrefixThenRest("copy from ", name);
    PrefixThenRest("copy to ", name);
    PrefixChar("copy to " + name, "copy from ", 5);
  }

  lemma PrefixedPercent(p: string, n: nat)
    requires p != "" && p[|p| - 1] != '\r'
    ensures var line := p + (Decimal(n) + "%");
      && StripCr(p + Decimal(n) + "%") == line && StartsWith(line, p)
      && Percent(line[|p|..]) == Some(n)
  {
    var rest := Decimal(n) + "%";
    ConcatAssoc(p, Decimal(n), "%");
    PlainLineKept(p, rest);
    PrefixThenRest(p, rest);
    PercentIsRead(n);
    hide Percent;
    hide StripCr;
    hide StartsWith;
    hide Decimal;
  }

  lemma SimilarityKind(line: string)
    requires StartsWith(line, "similarity index ")
    ensures Classify(line) == Similarity(if Percent(line[17..]).Some? then Some(Percent(line[17..]).value) else None)
  {
    hide Percent;
    hide StartsWith;
  }

  lemma SimilarityLine(n: nat)
    ensures Classify(StripCr("similarity index " + Decimal(n) + "%")) == Similarity(Some(n))
  {
    hide Classify;
    hide Percent;
    hide StripCr;
    hide StartsWith;
    hide Decimal;
    var p := "similarity index ";
    PrefixedPercent(p, n);
    SimilarityKind(p + (Decimal(n) + "%"));
  }

  lemma DissimilarityKind(line: string)
    requires StartsWith(line, "dissimilarity index ")
    ensures Classify(line) ==
      Similarity(if Percent(line[20..]).Some? then Some(100 - Percent(line[20..]).value) else None)
  {
    hide Percent;
    DissimilarityChars(line);
    PrefixChar(line, "diff --git ", 2);
    PrefixChar(line, "deleted file mode ", 1);
    hide StartsWith;
  }

  lemma DissimilarityChars(line: string)
    requires StartsWith(line, "dissimilarity index ")
    ensures |line| >= 20 && line[0] == 'd' && line[1] == 'i' && line[2] == 's'
  {
    PrefixChar(line, "dissimilarity index ", 1);
    PrefixChar(line, "dissimilarity index ", 2);
  }

  lemma DissimilarityLine(n: nat)
    ensures Classify(StripCr("dissimilarity index " + Decimal(n) + "%")) == Similarity(Some(100 - n))
  {
    hide Classify;
    hide Percent;
    hide StripCr;
    hide StartsWith;
    hide Decimal;
    var p := "dissimilarity index ";
    PrefixedPercent(p, n);
    DissimilarityKind(p + (Decimal(n) + "%"));
  }

  lemma PercentIsRead(n: nat)
    ensures Percent(Decimal(n) + "%") == Some(n)
  {
    hide DigitRun;
    hide Decimal;
    hide NumberOf;
    DigitRunIs(Decimal(n), "%");
    NumberOfDecimal(n);
  }

  lemma IndexLine(rest: string)
    ensures Classify(StripCr("index " + rest)) == Ignored
  {
    hide StripCr;
    hide StartsWith;
    StripCrOfTail("index ", rest);
    PrefixThenRest("index ", StripCr(rest));
  }

  lemma SideLines(name: string)
    requires name != "" ==> name[|name| - 1] != '\r'
    ensures Classify(StripCr("--- " + name)) == OldSide(AbPath(name))
    ensures Classify(StripCr("+++ " + name)) == NewSide(AbPath(name))
  {
    hide AbPath;
    hide StripCr;
    PlainLineKept("--- ", name);
    PlainLineKept("+++ ", name);
    PrefixThenRest("--- ", name);
    PrefixThenRest("+++ ", name);
    NoExtendedHeader("--- " + name);
    NoExtendedHeader("+++ " + name);
    hide Extended;
    hide StartsWith;
    assert ("+++ " + name)[0] == '+';
    FirstCharDecides("+++ " + name);
  }

  lemma GitLineKind(name: string)
    requires name != "" ==> name[|name| - 1] != '\r'
    ensures StripCr("diff --git " + name) == "diff --git " + name
    ensures Classify("diff --git " + name) == Git
  {
    PlainLineKept("diff --git ", name);
    PrefixThenRest("diff --git ", name);
    hide StartsWith;
  }

  lemma BinaryKind(line: string)
    requires line != "" && line[0] == 'B' && StartsWith(line, "Binary files ") && EndsWith(line, " differ")
    ensures Classify(line) == Binary(BinarySides(line))
  {
    hide BinarySides;
    hide StartsWith;
    hide EndsWith;
  }

  lemma BinaryLine(left: string, right: string)
    ensures var line := "Binary files " + left + " and " + right + " differ";
      StripCr(line) == line && StartsWith(line, "Binary files ") && EndsWith(line, " differ")
      && Classify(line) == Binary(BinarySides(line))
  {
    hide BinarySides;
    hide Classify;
    var line := "Binary files " + left + " and " + right + " differ";
    Kept(line);
    SidesOfLine(left, right);
    BinaryKind(line);
  }

  // ---------------------------------------------------------------- the draft before the content

  function AfterModes(d: Draft, modes: Option<Modes>): Draft {
    if modes.None? then d else d.(oldMode := Some(modes.value.before), newMode := Some(modes.value.after))
  }

  function DraftOf(c: Change): Draft {
    var d := NewDraft(PrintGitLine(c));
    match c
    case Modify(_, modes, rewrite) =>
      AfterModes(d, modes).(similarity := if rewrite.Some? then Some(100 - rewrite.value) else None)
    case Create(_, mode) => d.(isNewFile := true, newMode := Some(mode), oldPath := Some(None))
    case Remove(_, mode) => d.(isDeletedFile := true, oldMode := Some(mode), newPath := Some(None))
    case Rename(source, target, similarity, modes) =>
      AfterModes(d, modes).(
        similarity := Some(similarity), isRename := true,
        oldPath := Some(Some(Unquoted(Printed(source)))), newPath := Some(Some(Unquoted(Printed(target)))))
    case Copy(source, target, similarity, modes) =>
      AfterModes(d, modes).(
        similarity := Some(similarity), isCopy := true,
        oldPath := Some(Some(Unquoted(Printed(source)))), newPath := Some(Some(Unquoted(Printed(target)))))
  }

  /** Kinds of lines that only change the draft. */
  predicate IsHeader(kind: Kind) {
    !kind.Git? && !kind.Hunk? && !kind.NoNewline? && !kind.Marked? && !kind.Noise?
  }

  lemma FeedHeader(s: State, line: string)
    requires s.draft.Some? && IsHeader(Classify(StripCr(line)))
    ensures Feed(s, [line]) == s.(draft := Some(Header(s.draft.value, Classify(StripCr(line)))))
  {
    hide Classify;
    hide Header;
    hide StripCr;
    FeedOne(s, line);
  }

  lemma FeedCons(s: State, line: string, rest: seq<string>)
    ensures Feed(s, [line] + rest) == Feed(Feed(s, [line]), rest)
  {
    FeedAppend(s, [line], rest);
  }

  lemma FeedModes(s: State, modes: Option<Modes>)
    requires s.draft.Some?
    ensures Feed(s, PrintModes(modes)) == s.(draft := Some(AfterModes(s.draft.value, modes)))
  {
    hide Feed;
    hide Classify;
    hide StripCr;
    if modes.Some? {
      var before, after := "old mode " + modes.value.before, "new mode " + modes.value.after;
      ModeLines(modes.value.before);
      ModeLines(modes.value.after);
      FeedCons(s, before, [after]);
      FeedHeader(s, before);
      FeedHeader(Feed(s, [before]), after);
      assert PrintModes(modes) == [before] + [after];
    } else {
      FeedNothing(s);
    }
  }

  lemma FeedThree(s: State, x: string, y: string, z: string)
    requires s.draft.Some?
    requires IsHeader(Classify(StripCr(x))) && IsHeader(Classify(StripCr(y))) && IsHeader(Classify(StripCr(z)))
    ensures Feed(s, [x, y, z]) == s.(draft := Some(
      Header(Header(Header(s.draft.value, Classify(StripCr(x))), Classify(StripCr(y))), Classify(StripCr(z)))))
  {
    hide Feed;
    hide Classify;
    hide Header;
    hide StripCr;
    hide IsHeader;
    assert [x, y, z] == [x] + [y, z] && [y, z] == [y] + [z];
    FeedCons(s, x, [y, z]);
    FeedHeader(s, x);
    var s1 := Feed(s, [x]);
    FeedCons(s1, y, [z]);
    FeedHeader(s1, y);
    FeedHeader(Feed(s1, [y]), z);
  }

  lemma FeedChange(s: State, c: Change)
    requires s.draft == Some(NewDraft(PrintGitLine(c)))
    ensures Feed(s, PrintChange(c)) == s.(draft := Some(DraftOf(c)))
  {
    hide Feed;
    hide Classify;
    hide StripCr;
    hide Printed;
    hide Unquoted;
    hide PrintModes;
    hide PrintGitLine;
    match c
    case Modify(_, _, _) => FeedModify(s, c);
    case Create(_, mode) => FileModeLines(mode); FeedHeader(s, "new file mode " + mode);
    case Remove(_, mode) => FileModeLines(mode); FeedHeader(s, "deleted file mode " + mode);
    case Rename(_, _, _, _) => FeedRename(s, c);
    case Copy(_, _, _, _) => FeedCopy(s, c);
  }

  lemma FeedModify(s: State, c: Change)
    requires s.draft == Some(NewDraft(PrintGitLine(c))) && c.Modify?
    ensures Feed(s, PrintChange(c)) == s.(draft := Some(DraftOf(c)))
  {
    hide Feed;
    hide Classify;
    hide StripCr;
    hide PrintModes;
    hide PrintGitLine;
    FeedModes(s, c.modes);
    if c.rewrite.Some? {
      var line := "dissimilarity index " + Decimal(c.rewrite.value) + "%";
      FeedAppend(s, PrintModes(c.modes), [line]);
      DissimilarityLine(c.rewrite.value);
      FeedHeader(Feed(s, PrintModes(c.modes)), line);
    } else {
      assert PrintChange(c) == PrintModes(c.modes);
    }
  }

  lemma FeedRename(s: State, c: Change)
    requires s.draft == Some(NewDraft(PrintGitLine(c))) && c.Rename?
    ensures Feed(s, PrintChange(c)) == s.(draft := Some(DraftOf(c)))
  {
    hide Feed;
    hide Classify;
    hide StripCr;
    hide Printed;
    hide Unquoted;
    hide PrintModes;
    hide PrintGitLine;
    var lines := ["similarity index " + Decimal(c.similarity) + "%",
                  "rename from " + Printed(c.source), "rename to " + Printed(c.target)];
    FeedModes(s, c.modes);
    FeedAppend(s, PrintModes(c.modes), lines);
    SimilarityLine(c.similarity);
    PrintedIsPlain(c.source);
    PrintedIsPlain(c.target);
    RenameLines(Printed(c.source));
    RenameLines(Printed(c.target));
    FeedThree(Feed(s, PrintModes(c.modes)), lines[0], lines[1], lines[2]);
  }

  lemma FeedCopy(s: State, c: Change)
    requires s.draft == Some(NewDraft(PrintGitLine(c))) && c.Copy?
    ensures Feed(s, PrintChange(c)) == s.(draft := Some(DraftOf(c)))
  {
    hide Feed;
    hide Classify;
    hide StripCr;
    hide Printed;
    hide Unquoted;
    hide PrintModes;
    hide PrintGitLine;
    var lines := ["similarity index " + Decimal(c.similarity) + "%",
                  "copy from " + Printed(c.source), "copy to " + Printed(c.target)];
    FeedModes(s, c.modes);
    FeedAppend(s, PrintModes(c.modes), lines);
    SimilarityLine(c.similarity);
    PrintedIsPlain(c.source);
    PrintedIsPlain(c.target);
    CopyLines(Printed(c.source));
    CopyLines(Printed(c.target));
    FeedThree(Feed(s, PrintModes(c.modes)), lines[0], lines[1], lines[2]);
  }

  predicate Sound(s: State) {
    s.hunk.Some? ==> s.draft.Some?
  }

  function IndexRows(f: GitFile): seq<string> {
    if f.index.Some? then ["index " + f.index.value] else []
  }

  lemma FeedGitLine(s: State, c: Change)
    requires Sound(s)
    ensures Feed(s, [PrintGitLine(c)]) == State(FlushDraft(s).files, Some(NewDraft(PrintGitLine(c))), None)
  {
    hide Classify;
    hide StripCr;
    hide Finalize;
    hide Printed;
    var name := Printed("a/" + c.Before()) + " " + Printed("b/" + c.After());
    assert PrintGitLine(c) == "diff --git " + name;
    PrintedIsPlain("b/" + c.After());
    PlainHasNoBreak(Printed("b/" + c.After()));
    GitLineKind(name);
    FeedOne(s, PrintGitLine(c));
  }

  lemma FeedHead(s: State, f: GitFile)
    requires Sound(s)
    ensures Feed(s, [PrintGitLine(f.change)] + PrintChange(f.change) + IndexRows(f))
      == State(FlushDraft(s).files, Some(DraftOf(f.change)), None)
  {
    hide Feed;
    hide FlushDraft;
    hide DraftOf;
    hide PrintChange;
    hide PrintGitLine;
    hide Classify;
    hide StripCr;
    var c := f.change;
    FeedGitLine(s, c);
    FeedAppend(s, [PrintGitLine(c)], PrintChange(c));
    FeedChange(Feed(s, [PrintGitLine(c)]), c);
    var s2 := Feed(s, [PrintGitLine(c)] + PrintChange(c));
    FeedAppend(s, [PrintGitLine(c)] + PrintChange(c), IndexRows(f));
    if f.index.Some? {
      IndexLine(f.index.value);
      FeedHeader(s2, "index " + f.index.value);
    } else {
      FeedNothing(s2);
    }
  }

  // ---------------------------------------------------------------- the file is the expected one exactly when faithful

  function OldExpected(c: Change): Option<string> {
    if c.Create? then None else Some(c.Before())
  }

  function NewExpected(c: Change): Option<string> {
    if c.Remove? then None else Some(c.After())
  }

  lemma LabelsAreReadIff(c: Change)
    ensures AbPath(Tabbed(OldLabel(c))) == OldExpected(c) <==> c.Create? || EndKept(c.Before())
    ensures AbPath(Tabbed(NewLabel(c))) == NewExpected(c) <==> c.Remove? || EndKept(c.After())
    ensures AbPath(OldLabel(c)) == OldExpected(c) <==> c.Create? || EndKept(c.Before())
    ensures AbPath(NewLabel(c)) == NewExpected(c) <==> c.Remove? || EndKept(c.After())
    ensures AbPath(OldLabel(c)).Some? <==> !c.Create?
    ensures AbPath(NewLabel(c)).Some? <==> !c.Remove?
  {
    hide AbPath;
    hide Printed;
    hide EndKept;
    hide Tabbed;
    DevNullIsNone();
    SideIsReadIff("a/", c.Before());
    SideIsReadIff("b/", c.After());
  }

  /** With both paths and the hunks right, everything else is right. */
  lemma FinalizedIff(f: GitFile, d: Draft)
    requires var e := DraftOf(f.change);
      d == e.(oldPath := d.oldPath, newPath := d.newPath, isBinary := f.content.BinaryContent?, hunks := d.hunks)
    ensures Finalize(d) == ExpectedFile(f) <==>
      PathsOf(d) == (OldExpected(f.change), NewExpected(f.change)) && d.hunks == ExpectedFile(f).hunks
  {
    hide PathsOf;
    hide ExpectedHunks;
    hide CountHunks;
    hide PrintGitLine;
    hide Unquoted;
    hide Printed;
  }

  lemma NothingIff(f: GitFile)
    requires f.content.Nothing?
    ensures Finalize(DraftOf(f.change)) == ExpectedFile(f) <==> Faithful(f)
  {
    hide Finalize;
    hide Unquoted;
    hide Printed;
    hide EndsKept;
    hide DiffGitLine.Paths;
    var c := f.change;
    FinalizedIff(f, DraftOf(c));
    if c.Modify? {
      GitLineOfOnePath(c.path);
    } else if c.Rename? || c.Copy? {
      NameIsReadIff(c.source);
      NameIsReadIff(c.target);
    }
  }

  function BinaryRow(c: Change): string {
    "Binary files " + OldLabel(c) + " and " + NewLabel(c) + " differ"
  }

  lemma BinaryIff(f: GitFile)
    requires f.content.BinaryContent?
    ensures StartsWith(BinaryRow(f.change), "Binary files ") && EndsWith(BinaryRow(f.change), " differ")
    ensures Finalize(Header(DraftOf(f.change), Binary(BinarySides(BinaryRow(f.change))))) == ExpectedFile(f) <==>
      Faithful(f)
  {
    hide Finalize;
    hide Unquoted;
    hide Printed;
    hide EndsKept;
    hide EndKept;
    hide BinarySides;
    hide AbPath;
    hide StartsWith;
    hide EndsWith;
    hide NoAnd;
    hide PrintGitLine;
    var c := f.change;
    SidesOfLine(OldLabel(c), NewLabel(c));
    var d := Header(DraftOf(c), Binary(BinarySides(BinaryRow(c))));
    FinalizedIff(f, d);
    LabelsAreReadIff(c);
    if c.Rename? || c.Copy? {
      NameIsReadIff(c.source);
      NameIsReadIff(c.target);
    } else if c.Create? {
      DevNullHasNoAnd();
    } else if !NoAnd(OldLabel(c)) {
      var n :| 0 <= n < |OldLabel(c)| && OldLabel(c)[n] == ' '
        && BinarySides(BinaryRow(c)).value.0 == AbPath(OldLabel(c)[..n]);
      CutNameIsWrong(c.path, n);
    }
  }

  lemma DevNullHasNoAnd()
    ensures NoAnd("/dev/null")
  {
    var s := "/dev/null" + " ";
    assert forall k | 0 <= k < 9 :: s[k] != ' ';
    var i := IndexOf(s, " and ", 0);
    if i >= 0 {
      AndStartsWithSpace(s, i);
    }
  }

  lemma AndStartsWithSpace(s: string, i: nat)
    ensures OccursAt(s, " and ", i) ==> i + 5 <= |s| && s[i] == ' '
  {
    if OccursAt(s, " and ", i) {
      assert s[i..i + 5][0] == s[i];
    }
  }

  lemma DraftHasNoHunks(c: Change)
    ensures DraftOf(c).hunks == [] && !DraftOf(c).isBinary
  {
  }

  lemma TextIff(f: GitFile, e: Draft)
    requires f.content.Text?
    requires var d := DraftOf(f.change).(
      oldPath := Some(AbPath(Tabbed(OldLabel(f.change)))), newPath := Some(AbPath(Tabbed(NewLabel(f.change)))));
      Extends(d, e, ParsedHunks(f.content.hunks))
        && (CleanHunks(f.content.hunks) ==> e.oldPath == d.oldPath && e.newPath == d.newPath)
    ensures Finalize(e) == ExpectedFile(f) <==> Faithful(f)
  {
    hide Finalize;
    hide AbPath;
    hide Tabbed;
    hide OldLabel;
    hide NewLabel;
    hide EndKept;
    hide CleanHunk;
    hide ParsedHunks;
    hide ExpectedHunks;
    hide PrintGitLine;
    hide Unquoted;
    hide Printed;
    hide OldExpected;
    hide NewExpected;
    DraftHasNoHunks(f.change);
    hide DraftOf;
    var c, hunks := f.change, f.content.hunks;
    FinalizedIff(f, e);
    LabelsAreReadIff(c);
    HunksAreExpectedIff(hunks);
    assert [] + ParsedHunks(hunks) == ParsedHunks(hunks);
  }

  // ---------------------------------------------------------------- whole files and whole diffs

  lemma FlushHunkOfClosed(s: State)
    ensures s.draft.Some? && s.hunk.None? ==> Closed(s) == s.draft.value
  {
  }

  /** One more file, the expected one exactly when the printed file is faithful. */
  predicate Reads(before: State, after: State, f: GitFile, file: DiffFile) {
    && Sound(after)
    && FlushDraft(after).files == FlushDraft(before).files + [file]
    && (file == ExpectedFile(f) <==> Faithful(f))
  }

  lemma FlushedFiles(s: State)
    requires s.draft.Some?
    ensures FlushDraft(s).files == s.files + [Finalize(Closed(s))]
  {
    hide Finalize;
  }

  lemma FeedTextContent(s: State, f: GitFile) returns (file: DiffFile)
    requires f.content.Text? && s.draft == Some(DraftOf(f.change)) && s.hunk.None?
    ensures var t := Feed(s, PrintContent(f));
      t.draft.Some? && FlushDraft(t).files == s.files + [file]
    ensures file == ExpectedFile(f) <==> Faithful(f)
  {
    hide Feed;
    hide Classify;
    hide StripCr;
    hide AbPath;
    hide OldLabel;
    hide NewLabel;
    hide Tabbed;
    hide Finalize;
    hide FlushDraft;
    hide PrintHunks;
    hide ParsedHunks;
    hide ExpectedFile;
    hide Faithful;
    hide DraftOf;
    hide CleanHunks;
    hide Extends;
    FlushHunkOfClosed(s);
    var a, b, rest := OldRow(f.change), NewRow(f.change), PrintHunks(f.content.hunks);
    assert PrintContent(f) == [a, b] + rest;
    FeedAppend(s, [a, b], rest);
    FeedSides(s, f.change);
    var e := FeedHunks(Feed(s, [a, b]), f.content.hunks);
    FlushedFiles(Feed(s, PrintContent(f)));
    TextIff(f, e);
    file := Finalize(e);
  }

  function OldRow(c: Change): string {
    "--- " + Tabbed(OldLabel(c))
  }

  function NewRow(c: Change): string {
    "+++ " + Tabbed(NewLabel(c))
  }

  lemma FeedTwoSides(s: State, left: string, right: string)
    requires s.draft.Some?
    requires (left != "" ==> left[|left| - 1] != '\r') && (right != "" ==> right[|right| - 1] != '\r')
    ensures Feed(s, ["--- " + left, "+++ " + right]) ==
      s.(draft := Some(s.draft.value.(oldPath := Some(AbPath(left)), newPath := Some(AbPath(right)))))
  {
    hide Feed;
    hide Classify;
    hide StripCr;
    hide AbPath;
    SideLines(left);
    SideLines(right);
    var x, y := "--- " + left, "+++ " + right;
    FeedCons(s, x, [y]);
    FeedHeader(s, x);
    FeedHeader(Feed(s, [x]), y);
    assert [x, y] == [x] + [y];
  }

  lemma FeedSides(s: State, c: Change)
    requires s.draft.Some?
    ensures Feed(s, [OldRow(c), NewRow(c)]) == s.(draft := Some(s.draft.value.(
      oldPath := Some(AbPath(Tabbed(OldLabel(c)))), newPath := Some(AbPath(Tabbed(NewLabel(c)))))))
  {
    hide Feed;
    hide AbPath;
    hide OldLabel;
    hide NewLabel;
    hide Tabbed;
    LabelsStayOnTheirLine(c);
    var names := [OldLabel(c), NewLabel(c), Tabbed(OldLabel(c)), Tabbed(NewLabel(c))];
    assert names[2] in names && names[3] in names;
    FeedTwoSides(s, names[2], names[3]);
  }

  lemma LabelsStayOnTheirLine(c: Change)
    ensures forall name <- [OldLabel(c), NewLabel(c), Tabbed(OldLabel(c)), Tabbed(NewLabel(c))] ::
      '\n' !in name && (name != "" ==> name[|name| - 1] != '\r')
  {
    hide Printed;
    PrintedIsPlain("a/" + c.Before());
    PrintedIsPlain("b/" + c.After());
    PlainHasNoBreak(Printed("a/" + c.Before()));
    PlainHasNoBreak(Printed("b/" + c.After()));
  }

  lemma FeedContent(s: State, f: GitFile) returns (file: DiffFile)
    requires s.draft == Some(DraftOf(f.change)) && s.hunk.None?
    ensures var t := Feed(s, PrintContent(f));
      t.draft.Some? && FlushDraft(t).files == s.files + [file]
    ensures file == ExpectedFile(f) <==> Faithful(f)
  {
    hide Feed;
    hide Classify;
    hide StripCr;
    hide OldLabel;
    hide NewLabel;
    hide Finalize;
    hide FlushDraft;
    hide ExpectedFile;
    hide Faithful;
    hide DraftOf;
    hide BinarySides;
    hide Header;
    match f.content
    case Nothing =>
      FeedNothing(s);
      FlushedFiles(s);
      NothingIff(f);
      file := Finalize(DraftOf(f.change));
    case BinaryContent =>
      BinaryLine(OldLabel(f.change), NewLabel(f.change));
      BinaryIff(f);
      FeedHeader(s, BinaryRow(f.change));
      FlushedFiles(Feed(s, PrintContent(f)));
      file := Finalize(Header(DraftOf(f.change), Binary(BinarySides(BinaryRow(f.change)))));
    case Text(_) =>
      file := FeedTextContent(s, f);
  }

  lemma FeedFile(s: State, f: GitFile) returns (file: DiffFile)
    requires Sound(s)
    ensures Reads(s, Feed(s, PrintFile(f)), f, file)
  {
    hide Feed;
    hide FlushDraft;
    hide DraftOf;
    hide PrintChange;
    hide PrintContent;
    hide PrintGitLine;
    hide ExpectedFile;
    hide Faithful;
    var head := [PrintGitLine(f.change)] + PrintChange(f.change) + IndexRows(f);
    FeedAppend(s, head, PrintContent(f));
    FeedHead(s, f);
    file := FeedContent(Feed(s, head), f);
    assert PrintFile(f) == head + PrintContent(f);
  }

  predicate AllFaithful(files: seq<GitFile>) {
    forall f <- files :: Faithful(f)
  }

  lemma AllFaithfulCons(files: seq<GitFile>)
    requires files != []
    ensures AllFaithful(files) <==> Faithful(files[0]) && AllFaithful(files[1..])
  {
    hide Faithful;
    assert files == [files[0]] + files[1..];
    assert forall f <- files[1..] :: f in files;
  }

  lemma ConsFiles(x: DiffFile, xs: seq<DiffFile>, y: DiffFile, ys: seq<DiffFile>)
    ensures [x] + xs == [y] + ys <==> x == y && xs == ys
  {
    assert ([x] + xs)[0] == x && ([x] + xs)[1..] == xs;
    assert ([y] + ys)[0] == y && ([y] + ys)[1..] == ys;
  }

  lemma {:induction false} FeedFiles(s: State, files: seq<GitFile>) returns (parsed: seq<DiffFile>)
    requires Sound(s)
    ensures var t := Feed(s, PrintFiles(files));
      Sound(t) && FlushDraft(t).files == FlushDraft(s).files + parsed
    ensures parsed == ExpectedFiles(files) <==> AllFaithful(files)
    ensures |parsed| == |ExpectedFiles(files)|
    decreases |files|
  {
    hide Feed;
    hide FlushDraft;
    hide PrintFile;
    hide ExpectedFile;
    hide Faithful;
    if files == [] {
      FeedNothing(s);
      parsed := [];
      assert FlushDraft(s).files + [] == FlushDraft(s).files;
    } else {
      var file := FeedFile(s, files[0]);
      var s1 := Feed(s, PrintFile(files[0]));
      FeedAppend(s, PrintFile(files[0]), PrintFiles(files[1..]));
      var rest := FeedFiles(s1, files[1..]);
      parsed := [file] + rest;
      AllFaithfulCons(files);
      ConsFiles(file, rest, ExpectedFile(files[0]), ExpectedFiles(files[1..]));
      assert FlushDraft(s).files + [file] + rest == FlushDraft(s).files + parsed;
    }
  }

  // ---------------------------------------------------------------- printed files stay on their lines

  lemma RowsAppend(xs: seq<string>, ys: seq<string>)
    requires Rows(xs) && Rows(ys)
    ensures Rows(xs + ys)
  {
  }

  lemma {:induction false} LinesAreRows(lines: seq<GitLine>)
    ensures Rows(PrintLines(lines))
  {
    if lines != [] {
      LinesAreRows(lines[1..]);
      var row := [MarkerOf(lines[0].kind)] + lines[0].text;
      assert '\n' !in row && '\n' !in NO_NEWLINE_ROW;
      assert Rows(PrintLine(lines[0]));
      RowsAppend(PrintLine(lines[0]), PrintLines(lines[1..]));
    }
  }

  lemma NumbersHaveNoBreak(n: nat)
    ensures '\n' !in Decimal(n)
  {
    assert !IsDigit('\n');
  }

  lemma HeaderIsRow(h: GitHunk)
    ensures '\n' !in PrintHunkHeader(h)
  {
    hide Decimal;
    NumbersHaveNoBreak(h.oldStart);
    NumbersHaveNoBreak(h.oldLines);
    NumbersHaveNoBreak(h.newStart);
    NumbersHaveNoBreak(h.newLines);
    assert '\n' !in PrintRange(h.oldStart, h.oldLines) && '\n' !in PrintRange(h.newStart, h.newLines);
  }

  lemma {:induction false} HunksAreRows(hunks: seq<GitHunk>)
    ensures Rows(PrintHunks(hunks))
  {
    hide PrintHunkHeader;
    if hunks != [] {
      HeaderIsRow(hunks[0]);
      LinesAreRows(hunks[0].lines);
      RowsAppend([PrintHunkHeader(hunks[0])], PrintLines(hunks[0].lines));
      HunksAreRows(hunks[1..]);
      RowsAppend(PrintHunk(hunks[0]), PrintHunks(hunks[1..]));
    }
  }

  lemma ModesAreRows(modes: Option<Modes>)
    ensures Rows(PrintModes(modes))
  {
    assert !IsDigit('\n');
  }

  lemma ChangeIsRows(c: Change)
    ensures Rows(PrintChange(c))
  {
    hide Printed;
    hide PrintModes;
    hide Decimal;
    hide Rows;
    match c
    case Modify(_, modes, rewrite) => RewriteIsRows(modes, rewrite);
    case Create(_, mode) => ModeIsRow("new file mode ", mode);
    case Remove(_, mode) => ModeIsRow("deleted file mode ", mode);
    case Rename(source, target, similarity, modes) =>
      MoveIsRows(modes, similarity, "rename from ", source, "rename to ", target);
    case Copy(source, target, similarity, modes) =>
      MoveIsRows(modes, similarity, "copy from ", source, "copy to ", target);
  }

  lemma ModeIsRow(prefix: string, mode: Mode)
    requires '\n' !in prefix
    ensures Rows([prefix + mode])
  {
    assert !IsDigit('\n');
  }

  lemma RewriteIsRows(modes: Option<Modes>, rewrite: Option<nat>)
    ensures Rows(PrintModes(modes)
      + (if rewrite.Some? then ["dissimilarity index " + Decimal(rewrite.value) + "%"] else []))
  {
    hide PrintModes;
    hide Decimal;
    ModesAreRows(modes);
    if rewrite.Some? {
      NumbersHaveNoBreak(rewrite.value);
      RowsAppend(PrintModes(modes), ["dissimilarity index " + Decimal(rewrite.value) + "%"]);
    } else {
      RowsAppend(PrintModes(modes), []);
    }
  }

  lemma MoveIsRows(modes: Option<Modes>, similarity: nat, f: string, source: string, t: string, target: string)
    requires '\n' !in f && '\n' !in t
    ensures Rows(PrintModes(modes)
      + ["similarity index " + Decimal(similarity) + "%", f + Printed(source), t + Printed(target)])
  {
    hide Printed;
    hide PrintModes;
    hide Decimal;
    ModesAreRows(modes);
    NumbersHaveNoBreak(similarity);
    PrintedIsPlain(source);
    PrintedIsPlain(target);
    RowsAppend(
      PrintModes(modes), ["similarity index " + Decimal(similarity) + "%", f + Printed(source), t + Printed(target)]);
  }

  lemma ContentIsRows(f: GitFile)
    ensures Rows(PrintContent(f))
  {
    hide OldLabel;
    hide NewLabel;
    hide Tabbed;
    hide PrintHunks;
    var c := f.change;
    LabelsStayOnTheirLine(c);
    var names := [OldLabel(c), NewLabel(c), Tabbed(OldLabel(c)), Tabbed(NewLabel(c))];
    assert names[0] in names && names[1] in names && names[2] in names && names[3] in names;
    match f.content
    case Nothing =>
    case BinaryContent => BinaryRowIsRow(OldLabel(c), NewLabel(c));
    case Text(hunks) =>
      SideRowsAreRows(names[2], names[3]);
      HunksAreRows(hunks);
      RowsAppend(["--- " + names[2], "+++ " + names[3]], PrintHunks(hunks));
  }

  lemma BinaryRowIsRow(left: string, right: string)
    requires '\n' !in left && '\n' !in right
    ensures Rows(["Binary files " + left + " and " + right + " differ"])
  {
    assert '\n' !in "Binary files " + left + " and " + right + " differ";
  }

  lemma SideRowsAreRows(left: string, right: string)
    requires '\n' !in left && '\n' !in right
    ensures Rows(["--- " + left, "+++ " + right])
  {
    assert '\n' !in "--- " + left && '\n' !in "+++ " + right;
  }

  lemma FileIsRows(f: GitFile)
    ensures Rows(PrintFile(f))
  {
    hide Printed;
    hide PrintContent;
    hide PrintChange;
    var c := f.change;
    PrintedIsPlain("a/" + c.Before());
    PrintedIsPlain("b/" + c.After());
    ChangeIsRows(c);
    ContentIsRows(f);
    assert '\n' !in PrintGitLine(c);
    RowsAppend([PrintGitLine(c)], PrintChange(c));
    RowsAppend([PrintGitLine(c)] + PrintChange(c), IndexRows(f));
    RowsAppend([PrintGitLine(c)] + PrintChange(c) + IndexRows(f), PrintContent(f));
  }

  lemma {:induction false} FilesAreRows(files: seq<GitFile>)
    ensures Rows(PrintFiles(files))
  {
    if files != [] {
      hide PrintFile;
      FileIsRows(files[0]);
      FilesAreRows(files[1..]);
      RowsAppend(PrintFile(files[0]), PrintFiles(files[1..]));
    }
  }

  /** Parsing what git printed gives back the files, their statuses, modes, hunks, lines and
      end-of-file marks exactly when every file is faithful. */
  lemma ParseUndoesPrintIff(files: seq<GitFile>)
    ensures Parsed(Print(files)) == Result(ExpectedFiles(files)) <==> AllFaithful(files)
  {
    hide Feed;
    hide FlushDraft;
    hide PrintFiles;
    hide ExpectedFiles;
    hide AllFaithful;
    hide Lines;
    hide Steps;
    hide CountFiles;
    FilesAreRows(files);
    var parsed := FeedFiles(START, files);
    var t := Feed(START, PrintFiles(files));
    StepsOfJoin(START, PrintFiles(files));
    LastEmptyLine(t);
    StartIsEmpty();
    assert [] + parsed == parsed;
  }

  lemma StartIsEmpty()
    ensures FlushDraft(START).files == [] && Sound(START)
  {
  }

  lemma LastEmptyLine(s: State)
    ensures Sound(s) ==> FlushDraft(Step(s, "")).files == FlushDraft(s).files
  {
    hide Finalize;
    NoExtendedHeader("");
    assert Classify("") == Noise;
    hide Classify;
  }

  // ---------------------------------------------------------------- files that do not come back

  const DASHED_LINE := GitLine(Del, "-- x", false)
  const DASHED_FILE := GitFile(Modify("f", None, None), None, Text([GitHunk(1, 1, 0, 0, "", [DASHED_LINE])]))

  lemma UnfaithfulIsLost(f: GitFile)
    requires !Faithful(f)
    ensures Parsed(Print([f])) != Result(ExpectedFiles([f]))
  {
    hide Faithful;
    hide Parsed;
    hide Print;
    hide ExpectedFiles;
    assert f in [f];
    ParseUndoesPrintIff([f]);
  }

  /** A removed line of text "-- x" is taken for a header. */
  lemma RemovedDashesAreLost()
    ensures Parsed(Print([DASHED_FILE])) != Result(ExpectedFiles([DASHED_FILE]))
  {
    var h := DASHED_FILE.content.hunks[0];
    DashesAreUnclean(DASHED_LINE);
    assert DASHED_LINE in h.lines && !CleanHunk(h);
    assert h in DASHED_FILE.content.hunks;
    UnfaithfulIsLost(DASHED_FILE);
    hide CleanLine;
    hide Parsed;
    hide Print;
    hide ExpectedFiles;
  }

  lemma DashesAreUnclean(l: GitLine)
    requires l.kind == Del && l.text == "-- x"
    ensures !CleanLine(l)
  {
    assert l.text[..3] == "-- ";
  }

  /** A file of which git prints no content is read from its header lines alone. */
  lemma HeaderAlone(f: GitFile)
    requires f.content.Nothing?
    ensures Parsed(Print([f])).files == [Finalize(DraftOf(f.change))]
  {
    hide Feed;
    hide FlushDraft;
    hide DraftOf;
    hide PrintChange;
    hide PrintGitLine;
    hide Lines;
    hide Steps;
    hide CountFiles;
    FilesAreRows([f]);
    var head := [PrintGitLine(f.change)] + PrintChange(f.change) + IndexRows(f);
    OneFilePrinted(f);
    FeedHead(START, f);
    StepsOfJoin(START, PrintFiles([f]));
    var t := Feed(START, head);
    LastEmptyLine(t);
    StartIsEmpty();
    FlushedFiles(t);
    assert [] + [Finalize(DraftOf(f.change))] == [Finalize(DraftOf(f.change))];
  }

  lemma OneFilePrinted(f: GitFile)
    requires f.content.Nothing?
    ensures PrintFiles([f]) == [PrintGitLine(f.change)] + PrintChange(f.change) + IndexRows(f)
  {
    hide PrintChange;
    hide PrintGitLine;
    assert [f][1..] == [] && PrintFiles([]) == [];
    assert PrintFiles([f]) == PrintFile(f) + [];
  }

  /** An empty file that was added or deleted is reported, but without any path. */
  lemma EmptyFileHasNoPath(f: GitFile)
    requires f.content.Nothing? && (f.change.Create? || f.change.Remove?)
    ensures var files := Parsed(Print([f])).files;
      && |files| == 1 && files[0].oldPath.None? && files[0].newPath.None?
      && files[0].status == (if f.change.Create? then Added else Deleted)
    ensures Parsed(Print([f])) != Result(ExpectedFiles([f]))
  {
    HeaderAlone(f);
    hide Parsed;
    hide Print;
    NoPathIsUnexpected(f);
  }

  lemma NoPathIsUnexpected(f: GitFile)
    requires f.change.Create? || f.change.Remove?
    ensures ExpectedFiles([f]) == [ExpectedFile(f)]
    ensures ExpectedFile(f).oldPath.Some? || ExpectedFile(f).newPath.Some?
  {
    assert [f][1..] == [] && ExpectedFiles([]) == [];
  }
}
