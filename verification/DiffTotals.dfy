/** What the totals count, and what text outside hunks comes to. */
module DiffTotals {
  import opened JsText
  import opened DiffParser

  // ---------------------------------------------------------------- totals

  /** The lines of all hunks, in order. */
  function HunkLines(hunks: seq<DiffHunk>): seq<DiffLine> {
    if hunks == [] then [] else HunkLines(hunks[..|hunks| - 1]) + hunks[|hunks| - 1].lines
  }

  function FileLines(files: seq<DiffFile>): seq<DiffLine> {
    if files == [] then [] else FileLines(files[..|files| - 1]) + HunkLines(files[|files| - 1].hunks)
  }

  /** The places at which a line of this kind stands. */
  function PlacesOf(lines: seq<DiffLine>, kind: LineType): set<nat> {
    set k: nat | k < |lines| && lines[k].kind == kind
  }

  lemma {:induction false} CountLinesIs(lines: seq<DiffLine>, kind: LineType)
    ensures CountLines(lines, kind) == |PlacesOf(lines, kind)|
  {
    if lines != [] {
      var n := |lines| - 1;
      CountLinesIs(lines[..n], kind);
      var before := PlacesOf(lines[..n], kind);
      assert PlacesOf(lines, kind) == before + (if lines[n].kind == kind then {n} else {});
    } else {
      assert PlacesOf(lines, kind) == {};
    }
  }

  lemma {:induction false} CountLinesAppend(xs: seq<DiffLine>, ys: seq<DiffLine>, kind: LineType)
    ensures CountLines(xs + ys, kind) == CountLines(xs, kind) + CountLines(ys, kind)
    decreases |ys|
  {
    if ys == [] {
      assert xs + ys == xs;
    } else {
      var n := |ys| - 1;
      CountLinesAppend(xs, ys[..n], kind);
      assert (xs + ys)[..|xs + ys| - 1] == xs + ys[..n];
    }
  }

  lemma {:induction false} CountHunksIs(hunks: seq<DiffHunk>, kind: LineType)
    ensures CountHunks(hunks, kind) == CountLines(HunkLines(hunks), kind)
  {
    if hunks != [] {
      CountHunksIs(hunks[..|hunks| - 1], kind);
      CountLinesAppend(HunkLines(hunks[..|hunks| - 1]), hunks[|hunks| - 1].lines, kind);
      hide CountLines;
    }
  }

  lemma {:induction false} CountFilesIs(files: seq<DiffFile>, kind: LineType)
    ensures CountFiles(files, kind) == CountLines(FileLines(files), kind)
  {
    if files != [] {
      CountFilesIs(files[..|files| - 1], kind);
      CountHunksIs(files[|files| - 1].hunks, kind);
      CountLinesAppend(FileLines(files[..|files| - 1]), HunkLines(files[|files| - 1].hunks), kind);
      hide CountLines;
      hide CountHunks;
      hide HunkLines;
    }
  }

  /** The totals of a parsed text are the numbers of added and removed lines in all its hunks, and
      those of a file the numbers in its own. */
  lemma TotalsCountTheLines(text: string)
    ensures var d := Parsed(text);
      && d.additions == |PlacesOf(FileLines(d.files), Add)| && d.deletions == |PlacesOf(FileLines(d.files), Del)|
      && forall f <- d.files ::
           f.additions == |PlacesOf(HunkLines(f.hunks), Add)| && f.deletions == |PlacesOf(HunkLines(f.hunks), Del)|
  {
    var d := Parsed(text);
    ParsedIsNumberedAndCounted(text);
    hide Parsed;
    hide PlacesOf;
    CountFilesIs(d.files, Add);
    CountFilesIs(d.files, Del);
    CountLinesIs(FileLines(d.files), Add);
    CountLinesIs(FileLines(d.files), Del);
    hide CountLines;
    hide CountFiles;
    hide FileLines;
    forall f | f in d.files
      ensures f.additions == |PlacesOf(HunkLines(f.hunks), Add)| && f.deletions == |PlacesOf(HunkLines(f.hunks), Del)|
    {
      CountHunksIs(f.hunks, Add);
      CountHunksIs(f.hunks, Del);
      CountLinesIs(HunkLines(f.hunks), Add);
      CountLinesIs(HunkLines(f.hunks), Del);
    }
  }

  // ---------------------------------------------------------------- text outside hunks

  /** Rows that say something only inside a hunk. */
  predicate OnlyBody(rows: seq<string>) {
    forall row <- rows :: Classify(row).Marked? || Classify(row).NoNewline? || Classify(row).Noise?
  }

  lemma {:induction false} NothingWithoutAHunk(s: State, rows: seq<string>)
    requires s.hunk.None? && OnlyBody(rows)
    ensures Steps(s, rows) == s
    decreases |rows|
  {
    hide Classify;
    hide Finalize;
    if rows != [] {
      assert rows[0] in rows && forall row <- rows[1..] :: row in rows;
      assert Step(s, rows[0]) == s;
      NothingWithoutAHunk(s, rows[1..]);
    }
  }

  /** A line that is no part of a diff ends the hunk before it: what looks like diff lines after it
      belongs to nothing until the next hunk header. */
  lemma NoiseEndsTheHunk(s: State, noise: string, rows: seq<string>)
    requires s.draft.Some? && Classify(noise).Noise? && OnlyBody(rows)
    ensures Steps(s, [noise] + rows) == FlushHunk(s)
  {
    assert ([noise] + rows)[0] == noise && ([noise] + rows)[1..] == rows;
    hide Classify;
    hide Finalize;
    NothingWithoutAHunk(FlushHunk(s), rows);
    hide OnlyBody;
  }

  /** Whatever stands before the first `diff --git` line is not read at all. */
  lemma {:induction false} PreambleIsIgnored(before: seq<string>, rows: seq<string>)
    requires forall row <- before :: !Classify(row).Git?
    ensures Steps(START, before + rows) == Steps(START, rows)
    decreases |before|
  {
    hide Classify;
    hide Finalize;
    if before == [] {
      assert before + rows == rows;
    } else {
      assert before[0] in before && forall row <- before[1..] :: row in before;
      assert (before + rows)[0] == before[0] && (before + rows)[1..] == before[1..] + rows;
      assert Step(START, before[0]) == START;
      PreambleIsIgnored(before[1..], rows);
    }
  }

  /** Lines without a marker of their own are such noise. */
  lemma UnmarkedIsNoise(row: string)
    requires row == "" || row[0] !in "\\+- dnorcsiBG@"
    ensures Classify(row).Noise?
  {
  }
}
