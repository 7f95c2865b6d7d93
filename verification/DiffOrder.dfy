/** The parser invents, repeats and reorders nothing. */
module DiffOrder {
  import opened JsText
  import opened DiffParser
  import opened GitDiff

  /** xs is what is left of ys after dropping some elements. */
  predicate Subsequence(xs: seq<string>, ys: seq<string>)
    decreases |ys|
  {
    if ys == [] then xs == []
    else
      || Subsequence(xs, ys[..|ys| - 1])
      || (xs != [] && xs[|xs| - 1] == ys[|ys| - 1] && Subsequence(xs[..|xs| - 1], ys[..|ys| - 1]))
  }

  function RawLine(l: DiffLine): string {
    [MarkerOf(l.kind)] + l.text
  }

  /** The lines a hunk was made of, its header first. */
  function RawHunk(h: DiffHunk): seq<string> {
    [h.header] + seq(|h.lines|, k requires 0 <= k < |h.lines| => RawLine(h.lines[k]))
  }

  function RawHunks(hunks: seq<DiffHunk>): seq<string> {
    if hunks == [] then [] else RawHunks(hunks[..|hunks| - 1]) + RawHunk(hunks[|hunks| - 1])
  }

  function RawFiles(files: seq<DiffFile>): seq<string> {
    if files == [] then [] else RawFiles(files[..|files| - 1]) + RawHunks(files[|files| - 1].hunks)
  }

  /** The lines a state has kept. */
  function Kept(s: State): seq<string> {
    RawFiles(s.files)
    + (if s.draft.Some? then RawHunks(s.draft.value.hunks) else [])
    + (if s.hunk.Some? then RawHunk(s.hunk.value.hunk) else [])
  }

  predicate Sound(s: State) {
    s.hunk.Some? ==> s.draft.Some?
  }

  lemma HunkSnoc(hunks: seq<DiffHunk>, h: DiffHunk)
    ensures RawHunks(hunks + [h]) == RawHunks(hunks) + RawHunk(h)
  {
    assert (hunks + [h])[..|hunks|] == hunks;
  }

  lemma FileSnoc(files: seq<DiffFile>, f: DiffFile)
    ensures RawFiles(files + [f]) == RawFiles(files) + RawHunks(f.hunks)
  {
    assert (files + [f])[..|files|] == files;
  }

  lemma FlushHunkKeeps(s: State)
    requires Sound(s)
    ensures Kept(FlushHunk(s)) == Kept(s) && FlushHunk(s).hunk.None? && FlushHunk(s).draft.Some? == s.draft.Some?
  {
    hide RawHunk;
    if s.hunk.Some? {
      HunkSnoc(s.draft.value.hunks, s.hunk.value.hunk);
    }
  }

  lemma FlushDraftKeeps(s: State)
    requires Sound(s)
    ensures Kept(FlushDraft(s)) == Kept(s) == RawFiles(FlushDraft(s).files) && FlushDraft(s).hunk.None?
  {
    hide RawHunk;
    hide RawHunks;
    hide RawFiles;
    hide FlushHunk;
    hide PathsOf;
    hide StatusOf;
    FlushHunkKeeps(s);
    var f := FlushHunk(s);
    if f.draft.Some? {
      FileSnoc(f.files, Finalize(f.draft.value));
    }
  }

  lemma PushAddsOne(o: OpenHunk, kind: LineType, text: string)
    ensures RawHunk(Push(o, kind, text).hunk)
      == RawHunk(o.hunk) + [[MarkerOf(kind)] + text]
  {
  }

  lemma MarkAddsNone(o: OpenHunk)
    ensures RawHunk(MarkLast(o).hunk) == RawHunk(o.hunk)
  {
  }

  lemma MarkedLineIs(line: string)
    ensures Classify(line).Marked? ==>
      line == [MarkerOf(Classify(line).line)] + Classify(line).text
  {
    hide Extended;
    hide TakeHunkHeader;
    hide StartsWith;
    ExtendedIsNotMarked(line);
    if Marker(line).Marked? {
      assert line == [line[0]] + line[1..];
    }
  }

  lemma ExtendedIsNotMarked(line: string)
    ensures Extended(line).Some? ==> !Extended(line).value.Marked?
  {
    hide StartsWith;
    hide BinarySides;
    hide Percent;
  }

  /** A line is kept once, after all earlier ones, or not at all. */
  lemma StepKeepsOrder(s: State, line: string)
    requires Sound(s)
    ensures Sound(Step(s, line))
    ensures Kept(Step(s, line)) == Kept(s) || Kept(Step(s, line)) == Kept(s) + [line]
  {
    hide Classify;
    hide Header;
    hide FlushHunk;
    hide FlushDraft;
    hide Push;
    hide MarkLast;
    hide RawHunk;
    hide RawHunks;
    hide RawFiles;
    FlushHunkKeeps(s);
    FlushDraftKeeps(s);
    match Classify(line)
    case Git => GitLineKeeps(s, line);
    case Hunk(oldRange, newRange) => OpenedRaw(line, oldRange, newRange);
    case Marked(l, text) =>
      MarkedLineIs(line);
      if s.hunk.Some? { PushAddsOne(s.hunk.value, l, text); }
    case NoNewline =>
      if s.hunk.Some? { MarkAddsNone(s.hunk.value); }
    case Noise =>
    case kind =>
      if s.draft.Some? { HeaderKeepsHunks(s.draft.value, kind); }
  }

  lemma OpenedRaw(line: string, oldRange: Range, newRange: Range)
    ensures RawHunk(OpenedBy(line, oldRange, newRange).hunk) == [line]
  {
  }

  lemma GitLineKeeps(s: State, line: string)
    requires Sound(s) && Classify(line).Git?
    ensures Sound(Step(s, line)) && Kept(Step(s, line)) == Kept(s)
  {
    hide Classify;
    hide FlushDraft;
    hide RawFiles;
    FlushDraftKeeps(s);
    assert RawHunks([]) == [];
    assert FlushDraft(s).draft.None? by { FlushEndsDraft(s); }
  }

  lemma FlushEndsDraft(s: State)
    ensures FlushDraft(s).draft.None?
  {
  }

  lemma {:induction false} StepsKeepOrder(lines: seq<string>)
    ensures Sound(Steps(START, lines)) && Subsequence(Kept(Steps(START, lines)), lines)
    decreases |lines|
  {
    hide Kept;
    hide Step;
    if lines == [] {
      NothingKept();
    } else {
      var n := |lines| - 1;
      StepsKeepOrder(lines[..n]);
      StepsSnoc(START, lines, n);
      assert lines[..n + 1] == lines;
      var s := Steps(START, lines[..n]);
      StepKeepsOrder(s, lines[n]);
      hide Steps;
      assert (Kept(s) + [lines[n]])[..|Kept(s)|] == Kept(s);
    }
  }

  lemma NothingKept()
    ensures Kept(START) == [] && Sound(START)
  {
  }

  /** Hunk headers and lines, as parsed, come from distinct lines of the text in their order. */
  lemma ParsedKeepsOrder(text: string)
    ensures Subsequence(RawFiles(Parsed(text).files), Lines(text))
  {
    hide Lines;
    hide Steps;
    hide RawFiles;
    hide FlushDraft;
    StepsKeepOrder(Lines(text));
    FlushDraftKeeps(Steps(START, Lines(text)));
  }
}
