/** What git prints for a list of changed files. */
module GitDiff {
  import opened JsText
  import opened GitPath
  import opened DiffParser

  /** Text on one line of a file. */
  type Row = s: string | '\n' !in s

  type Mode = s: string | AllDigits(s)

  datatype GitLine = GitLine(kind: LineType, text: Row, noNewline: bool)

  datatype GitHunk = GitHunk(
    oldStart: nat, oldLines: nat, newStart: nat, newLines: nat, section: Row, lines: seq<GitLine>)

  datatype Modes = Modes(before: Mode, after: Mode)

  datatype Change =
    /** A rewrite says how much of the file is new. */
    | Modify(path: string, modes: Option<Modes>, rewrite: Option<nat>)
    | Create(path: string, mode: Mode)
    | Remove(path: string, mode: Mode)
    | Rename(source: string, target: string, similarity: nat, modes: Option<Modes>)
    | Copy(source: string, target: string, similarity: nat, modes: Option<Modes>)
  {
    function Before(): string {
      if Rename? || Copy? then source else path
    }

    function After(): string {
      if Rename? || Copy? then target else path
    }
  }

  datatype Content = Nothing | BinaryContent | Text(hunks: seq<GitHunk>)

  datatype GitFile = GitFile(change: Change, index: Option<Row>, content: Content)

  // ---------------------------------------------------------------- printing

  function PrintRange(start: nat, count: nat): string {
    if count == 1 then Decimal(start) else Decimal(start) + "," + Decimal(count)
  }

  function PrintHunkHeader(h: GitHunk): string {
    "@@ -" + PrintRange(h.oldStart, h.oldLines) + " +" + PrintRange(h.newStart, h.newLines) + " @@" + h.section
  }

  function MarkerOf(kind: LineType): char {
    match kind
    case Context => ' '
    case Add => '+'
    case Del => '-'
  }

  const NO_NEWLINE_ROW := "\\ No newline at end of file"

  function PrintLine(l: GitLine): seq<string> {
    [[MarkerOf(l.kind)] + l.text] + (if l.noNewline then [NO_NEWLINE_ROW] else [])
  }

  function PrintLines(lines: seq<GitLine>): seq<string> {
    if lines == [] then [] else PrintLine(lines[0]) + PrintLines(lines[1..])
  }

  function PrintHunk(h: GitHunk): seq<string> {
    [PrintHunkHeader(h)] + PrintLines(h.lines)
  }

  function PrintHunks(hunks: seq<GitHunk>): seq<string> {
    if hunks == [] then [] else PrintHunk(hunks[0]) + PrintHunks(hunks[1..])
  }

  function PrintModes(modes: Option<Modes>): seq<string> {
    match modes
    case None => []
    case Some(Modes(before, after)) => ["old mode " + before, "new mode " + after]
  }

  function PrintChange(c: Change): seq<string> {
    match c
    case Modify(_, modes, rewrite) =>
      PrintModes(modes) + (if rewrite.Some? then ["dissimilarity index " + Decimal(rewrite.value) + "%"] else [])
    case Create(_, mode) => ["new file mode " + mode]
    case Remove(_, mode) => ["deleted file mode " + mode]
    case Rename(source, target, similarity, modes) =>
      PrintModes(modes) +
      ["similarity index " + Decimal(similarity) + "%",
       "rename from " + Printed(source), "rename to " + Printed(target)]
    case Copy(source, target, similarity, modes) =>
      PrintModes(modes) +
      ["similarity index " + Decimal(similarity) + "%",
       "copy from " + Printed(source), "copy to " + Printed(target)]
  }

  /** How a side is named: with its prefix, or /dev/null when the file is not there. */
  function OldLabel(c: Change): string {
    if c.Create? then "/dev/null" else Printed("a/" + c.Before())
  }

  function NewLabel(c: Change): string {
    if c.Remove? then "/dev/null" else Printed("b/" + c.After())
  }

  /** Git ends a name that has spaces with a tab. */
  function Tabbed(name: string): string {
    if ' ' in name then name + "\t" else name
  }

  function PrintContent(f: GitFile): seq<string> {
    match f.content
    case Nothing => []
    case BinaryContent => ["Binary files " + OldLabel(f.change) + " and " + NewLabel(f.change) + " differ"]
    case Text(hunks) =>
      ["--- " + Tabbed(OldLabel(f.change)), "+++ " + Tabbed(NewLabel(f.change))] + PrintHunks(hunks)
  }

  function PrintGitLine(c: Change): string {
    "diff --git " + Printed("a/" + c.Before()) + " " + Printed("b/" + c.After())
  }

  function PrintFile(f: GitFile): seq<string> {
    [PrintGitLine(f.change)] + PrintChange(f.change)
    + (if f.index.Some? then ["index " + f.index.value] else [])
    + PrintContent(f)
  }

  function PrintFiles(files: seq<GitFile>): seq<string> {
    if files == [] then [] else PrintFile(files[0]) + PrintFiles(files[1..])
  }

  /** Every line with its newline. */
  function Join(lines: seq<string>): string {
    if lines == [] then "" else lines[0] + "\n" + Join(lines[1..])
  }

  function Print(files: seq<GitFile>): string {
    Join(PrintFiles(files))
  }

  // ---------------------------------------------------------------- what a reader should get back

  function ExpectedLines(oldNext: int, newNext: int, lines: seq<GitLine>): seq<DiffLine>
    decreases |lines|
  {
    if lines == [] then []
    else
      var l := lines[0];
      [DiffLine(
         l.kind,
         if l.kind == Add then None else Some(oldNext),
         if l.kind == Del then None else Some(newNext),
         l.text, l.noNewline)]
      + ExpectedLines(
          oldNext + (if l.kind == Add then 0 else 1),
          newNext + (if l.kind == Del then 0 else 1),
          lines[1..])
  }

  function ExpectedHunk(h: GitHunk): DiffHunk {
    DiffHunk(PrintHunkHeader(h), h.oldStart, h.oldLines, h.newStart, h.newLines,
             ExpectedLines(h.oldStart, h.newStart, h.lines))
  }

  function ExpectedHunks(hunks: seq<GitHunk>): seq<DiffHunk> {
    if hunks == [] then [] else [ExpectedHunk(hunks[0])] + ExpectedHunks(hunks[1..])
  }

  function ExpectedStatus(c: Change): Status {
    match c
    case Modify(_, _, _) => Modified
    case Create(_, _) => Added
    case Remove(_, _) => Deleted
    case Rename(_, _, _, _) => Renamed
    case Copy(_, _, _, _) => Copied
  }

  function ExpectedModes(c: Change): (Option<string>, Option<string>) {
    match c
    case Create(_, mode) => (None, Some(mode))
    case Remove(_, mode) => (Some(mode), None)
    case _ => if c.modes.Some? then (Some(c.modes.value.before), Some(c.modes.value.after)) else (None, None)
  }

  function ExpectedSimilarity(c: Change): Option<int> {
    match c
    case Rename(_, _, similarity, _) => Some(similarity)
    case Copy(_, _, similarity, _) => Some(similarity)
    case Modify(_, _, Some(rewrite)) => Some(100 - rewrite)
    case _ => None
  }

  function ExpectedFile(f: GitFile): DiffFile {
    var c := f.change;
    var hunks := if f.content.Text? then ExpectedHunks(f.content.hunks) else [];
    DiffFile(
      if c.Create? then None else Some(c.Before()),
      if c.Remove? then None else Some(c.After()),
      ExpectedStatus(c),
      ExpectedSimilarity(c),
      ExpectedModes(c).0, ExpectedModes(c).1,
      f.content.BinaryContent?,
      CountHunks(hunks, Add), CountHunks(hunks, Del), hunks)
  }

  function ExpectedFiles(files: seq<GitFile>): seq<DiffFile> {
    if files == [] then [] else [ExpectedFile(files[0])] + ExpectedFiles(files[1..])
  }

  // ---------------------------------------------------------------- when the reader gets it

  /** A header test does not take the line, and no carriage return is cut off it. */
  predicate CleanLine(l: GitLine) {
    && !(l.kind == Del && StartsWith(l.text, "-- "))
    && !(l.kind == Add && StartsWith(l.text, "++ "))
    && !EndsWith(l.text, "\r")
  }

  predicate CleanHunk(h: GitHunk) {
    OneLine(h.section) && forall l <- h.lines :: CleanLine(l)
  }

  /** Trimming an unquoted name leaves it whole, at its end or at both. */
  predicate EndKept(path: string) {
    NeedsQuotes(path) || path == "" || path[|path| - 1] != ' '
  }

  predicate EndsKept(path: string) {
    NeedsQuotes(path) || path == "" || (path[0] != ' ' && path[|path| - 1] != ' ')
  }

  /** The first " and " after this name is the one between the two names. */
  predicate NoAnd(name: string) {
    IndexOf(name + " ", " and ", 0) == -1
  }

  predicate Faithful(f: GitFile) {
    var c := f.change;
    match f.content
    case Nothing =>
      c.Modify? || ((c.Rename? || c.Copy?) && EndsKept(c.source) && EndsKept(c.target))
    case BinaryContent =>
      if c.Rename? || c.Copy? then EndsKept(c.source) && EndsKept(c.target)
      else EndKept(c.path) && (c.Create? || NoAnd(OldLabel(c)))
    case Text(hunks) =>
      && (c.Create? || EndKept(c.Before()))
      && (c.Remove? || EndKept(c.After()))
      && forall h <- hunks :: CleanHunk(h)
  }
}
