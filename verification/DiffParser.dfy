/** The structured form of a unified diff, and the line-driven parser that builds it. */
module DiffParser {
  import opened JsText
  import opened GitPath
  import DiffGitLine

  datatype LineType = Context | Add | Del

  datatype DiffLine = DiffLine(
    kind: LineType, oldNo: Option<int>, newNo: Option<int>, text: string, noNewlineAtEnd: bool)

  datatype DiffHunk = DiffHunk(
    header: string, oldStart: nat, oldLines: nat, newStart: nat, newLines: nat, lines: seq<DiffLine>)

  datatype Status = Added | Deleted | Renamed | Copied | Modified

  datatype DiffFile = DiffFile(
    oldPath: Option<string>, newPath: Option<string>, status: Status, similarity: Option<int>,
    oldMode: Option<string>, newMode: Option<string>, isBinary: bool,
    additions: nat, deletions: nat, hunks: seq<DiffHunk>)

  datatype ParsedDiff = ParsedDiff(files: seq<DiffFile>, additions: nat, deletions: nat)

  // ---------------------------------------------------------------- numbers in headers

  /** How many digits the text starts with. */
  function DigitRun(s: string): (n: nat)
    ensures n <= |s| && AllDigits(s[..n])
    ensures n < |s| ==> !IsDigit(s[n])
  {
    if s == "" || !IsDigit(s[0]) then 0
    else
      var n := DigitRun(s[1..]);
      assert s[..1 + n] == [s[0]] + s[1..][..n];
      1 + n
  }

  function NumberOf(digits: string): nat
    requires AllDigits(digits)
  {
    if digits == "" then 0
    else
      assert IsDigit(digits[|digits| - 1]);
      10 * NumberOf(digits[..|digits| - 1]) + (digits[|digits| - 1] as int - '0' as int)
  }

  datatype Range = Range(start: nat, count: Option<nat>)

  /** A start and an optional count, and what follows them. */
  function TakeRange(s: string): Option<(Range, string)> {
    var n := DigitRun(s);
    if n == 0 then None
    else
      var start, rest := NumberOf(s[..n]), s[n..];
      if StartsWith(rest, ",") && DigitRun(rest[1..]) > 0 then
        var m := DigitRun(rest[1..]);
        Some((Range(start, Some(NumberOf(rest[1..][..m]))), rest[1..][m..]))
      else Some((Range(start, None), rest))
  }

  predicate BreaksLine(c: char) {
    c == '\n' || c == '\r' || c == '\U{2028}' || c == '\U{2029}'
  }

  predicate OneLine(s: string) {
    forall c <- s :: !BreaksLine(c)
  }

  function TakeHunkHeader(line: string): Option<(Range, Range)> {
    if !StartsWith(line, "@@ -") then None
    else
      match TakeRange(line[4..])
      case None => None
      case Some((oldRange, rest)) =>
        if !StartsWith(rest, " +") then None
        else
          match TakeRange(rest[2..])
          case None => None
          case Some((newRange, tail)) =>
            if StartsWith(tail, " @@") && OneLine(tail[3..]) then Some((oldRange, newRange)) else None
  }

  /** The number before a percent sign. */
  function Percent(s: string): Option<nat> {
    var n := DigitRun(s);
    if 0 < n < |s| && s[n] == '%' then Some(NumberOf(s[..n])) else None
  }

  // ---------------------------------------------------------------- what a line is

  datatype Kind =
    | Git
    | OldMode(mode: string)
    | NewMode(mode: string)
    | DeletedFileMode(mode: string)
    | NewFileMode(mode: string)
    | RenameFrom(path: string)
    | RenameTo(path: string)
    | CopyFrom(path: string)
    | CopyTo(path: string)
    | Similarity(percent: Option<int>)
    | Ignored
    | Binary(sides: Option<(Option<string>, Option<string>)>)
    | OldSide(side: Option<string>)
    | NewSide(side: Option<string>)
    | Hunk(oldRange: Range, newRange: Range)
    | NoNewline
    | Marked(line: LineType, text: string)
    | Noise

  /** The two names of a "Binary files ... differ" line; None for /dev/null. */
  function BinarySides(line: string): Option<(Option<string>, Option<string>)>
    requires StartsWith(line, "Binary files ") && EndsWith(line, " differ")
  {
    var body := if |line| >= 20 then line[13..|line| - 7] else "";
    var mid := IndexOf(body, " and ", 0);
    if mid < 0 then None else Some((AbPath(body[..mid]), AbPath(body[mid + 5..])))
  }

  /** The tests that come before the `---` test. */
  function Extended(line: string): Option<Kind> {
    if StartsWith(line, "diff --git ") then Some(Git)
    else if StartsWith(line, "old mode ") then Some(OldMode(Trim(line[9..])))
    else if StartsWith(line, "new mode ") then Some(NewMode(Trim(line[9..])))
    else if StartsWith(line, "deleted file mode ") then Some(DeletedFileMode(Trim(line[18..])))
    else if StartsWith(line, "new file mode ") then Some(NewFileMode(Trim(line[14..])))
    else if StartsWith(line, "rename from ") then Some(RenameFrom(Unquoted(line[12..])))
    else if StartsWith(line, "rename to ") then Some(RenameTo(Unquoted(line[10..])))
    else if StartsWith(line, "copy from ") then Some(CopyFrom(Unquoted(line[10..])))
    else if StartsWith(line, "copy to ") then Some(CopyTo(Unquoted(line[8..])))
    else if StartsWith(line, "similarity index ") then
      var n := Percent(line[17..]);
      Some(Similarity(if n.Some? then Some(n.value) else None))
    else if StartsWith(line, "dissimilarity index ") then
      var n := Percent(line[20..]);
      Some(Similarity(if n.Some? then Some(100 - n.value) else None))
    else if StartsWith(line, "index ") then Some(Ignored)
    else if StartsWith(line, "Binary files ") && EndsWith(line, " differ") then Some(Binary(BinarySides(line)))
    else if line == "GIT binary patch" then Some(Binary(None))
    else None
  }

  function Marker(line: string): Kind {
    if line == "" then Noise
    else
      match line[0]
      case '\\' => NoNewline
      case '+' => Marked(Add, line[1..])
      case '-' => Marked(Del, line[1..])
      case ' ' => Marked(Context, line[1..])
      case _ => Noise
  }

  function Classify(line: string): Kind {
    var extended := Extended(line);
    if extended.Some? then extended.value
    else if StartsWith(line, "--- ") then OldSide(AbPath(line[4..]))
    else if StartsWith(line, "+++ ") then NewSide(AbPath(line[4..]))
    else
      match TakeHunkHeader(line)
      case Some((oldRange, newRange)) => Hunk(oldRange, newRange)
      case None => Marker(line)
  }

  // ---------------------------------------------------------------- the parser's state

  /** A path is None until a line has said something about it. */
  datatype Draft = Draft(
    gitLine: string, oldPath: Option<Option<string>>, newPath: Option<Option<string>>,
    oldMode: Option<string>, newMode: Option<string>, similarity: Option<int>,
    isBinary: bool, isRename: bool, isCopy: bool, isNewFile: bool, isDeletedFile: bool,
    hunks: seq<DiffHunk>)

  function NewDraft(gitLine: string): Draft {
    Draft(gitLine, None, None, None, None, None, false, false, false, false, false, [])
  }

  /** The hunk being filled, and the numbers its next lines get. */
  datatype OpenHunk = OpenHunk(hunk: DiffHunk, oldNext: int, newNext: int)

  datatype State = State(files: seq<DiffFile>, draft: Option<Draft>, hunk: Option<OpenHunk>)

  const START := State([], None, None)

  function Header(d: Draft, kind: Kind): Draft {
    match kind
    case OldMode(mode) => d.(oldMode := Some(mode))
    case NewMode(mode) => d.(newMode := Some(mode))
    case DeletedFileMode(mode) => d.(isDeletedFile := true, oldMode := Some(mode), newPath := Some(None))
    case NewFileMode(mode) => d.(isNewFile := true, newMode := Some(mode), oldPath := Some(None))
    case RenameFrom(path) => d.(isRename := true, oldPath := Some(Some(path)))
    case RenameTo(path) => d.(isRename := true, newPath := Some(Some(path)))
    case CopyFrom(path) => d.(isCopy := true, oldPath := Some(Some(path)))
    case CopyTo(path) => d.(isCopy := true, newPath := Some(Some(path)))
    case Similarity(Some(percent)) => d.(similarity := Some(percent))
    case Binary(None) => d.(isBinary := true)
    case Binary(Some((a, b))) =>
      d.(isBinary := true,
         oldPath := if d.oldPath.None? then Some(a) else d.oldPath,
         newPath := if d.newPath.None? then Some(b) else d.newPath)
    case OldSide(side) => d.(oldPath := Some(side))
    case NewSide(side) => d.(newPath := Some(side))
    case _ => d
  }

  function OpenedBy(line: string, oldRange: Range, newRange: Range): OpenHunk {
    OpenHunk(
      DiffHunk(line, oldRange.start, oldRange.count.GetOr(1), newRange.start, newRange.count.GetOr(1), []),
      oldRange.start, newRange.start)
  }

  function Push(o: OpenHunk, kind: LineType, text: string): OpenHunk {
    var line := match kind
      case Add => DiffLine(Add, None, Some(o.newNext), text, false)
      case Del => DiffLine(Del, Some(o.oldNext), None, text, false)
      case Context => DiffLine(Context, Some(o.oldNext), Some(o.newNext), text, false);
    OpenHunk(
      o.hunk.(lines := o.hunk.lines + [line]),
      o.oldNext + (if kind == Add then 0 else 1),
      o.newNext + (if kind == Del then 0 else 1))
  }

  /** The mark goes to the line just pushed, if there is one. */
  function MarkLast(o: OpenHunk): OpenHunk {
    var n := |o.hunk.lines|;
    if n == 0 then o
    else o.(hunk := o.hunk.(lines := o.hunk.lines[n - 1 := o.hunk.lines[n - 1].(noNewlineAtEnd := true)]))
  }

  function FlushHunk(s: State): State {
    if s.hunk.Some? && s.draft.Some? then
      s.(draft := Some(s.draft.value.(hunks := s.draft.value.hunks + [s.hunk.value.hunk])), hunk := None)
    else s
  }

  function FlushDraft(s: State): State {
    var f := FlushHunk(s);
    State(if f.draft.Some? then f.files + [Finalize(f.draft.value)] else f.files, None, f.hunk)
  }

  function Step(s: State, line: string): State {
    var kind := Classify(line);
    if kind.Git? then FlushDraft(s).(draft := Some(NewDraft(line)))
    else if s.draft.None? then s
    else
      match kind
      case Hunk(oldRange, newRange) => FlushHunk(s).(hunk := Some(OpenedBy(line, oldRange, newRange)))
      case NoNewline => if s.hunk.Some? then s.(hunk := Some(MarkLast(s.hunk.value))) else s
      case Marked(l, text) => if s.hunk.Some? then s.(hunk := Some(Push(s.hunk.value, l, text))) else s
      case Noise => FlushHunk(s)
      case _ => s.(draft := Some(Header(s.draft.value, kind)))
  }

  function Steps(s: State, lines: seq<string>): State
    decreases |lines|
  {
    if lines == [] then s else Steps(Step(s, lines[0]), lines[1..])
  }

  // ---------------------------------------------------------------- the result

  /** Lines of one kind. */
  function CountLines(lines: seq<DiffLine>, kind: LineType): nat {
    if lines == [] then 0
    else CountLines(lines[..|lines| - 1], kind) + (if lines[|lines| - 1].kind == kind then 1 else 0)
  }

  function CountHunks(hunks: seq<DiffHunk>, kind: LineType): nat {
    if hunks == [] then 0
    else CountHunks(hunks[..|hunks| - 1], kind) + CountLines(hunks[|hunks| - 1].lines, kind)
  }

  function CountFiles(files: seq<DiffFile>, kind: LineType): nat {
    if files == [] then 0
    else CountFiles(files[..|files| - 1], kind) + CountHunks(files[|files| - 1].hunks, kind)
  }

  function PathsOf(d: Draft): (Option<string>, Option<string>) {
    if d.oldPath.None? && d.newPath.None? then
      match DiffGitLine.Paths(d.gitLine)
      case Some((a, b)) => (Some(a), Some(b))
      case None => (None, None)
    else (d.oldPath.GetOr(None), d.newPath.GetOr(None))
  }

  function StatusOf(d: Draft): Status {
    var (oldPath, newPath) := PathsOf(d);
    if d.isRename then Renamed
    else if d.isCopy then Copied
    else if d.isNewFile || (oldPath.None? && newPath.Some?) then Added
    else if d.isDeletedFile || (newPath.None? && oldPath.Some?) then Deleted
    else Modified
  }

  function Finalize(d: Draft): DiffFile {
    var (oldPath, newPath) := PathsOf(d);
    DiffFile(oldPath, newPath, StatusOf(d), d.similarity, d.oldMode, d.newMode, d.isBinary,
             CountHunks(d.hunks, Add), CountHunks(d.hunks, Del), d.hunks)
  }

  function StripCr(line: string): string {
    if EndsWith(line, "\r") then line[..|line| - 1] else line
  }

  /** `text.split("\n")`, one carriage return less per line. */
  function Lines(text: string): seq<string> {
    var n := Find(text, '\n');
    if n == |text| then [StripCr(text)] else [StripCr(text[..n])] + Lines(text[n + 1..])
  }

  function Result(files: seq<DiffFile>): ParsedDiff {
    ParsedDiff(files, CountFiles(files, Add), CountFiles(files, Del))
  }

  function Parsed(text: string): ParsedDiff {
    Result(FlushDraft(Steps(START, Lines(text))).files)
  }

  // ---------------------------------------------------------------- what holds for any text

  /** Old numbers belong to context and removed lines, new ones to context and added lines. */
  function OldCount(lines: seq<DiffLine>): nat {
    CountLines(lines, Context) + CountLines(lines, Del)
  }

  function NewCount(lines: seq<DiffLine>): nat {
    CountLines(lines, Context) + CountLines(lines, Add)
  }

  /** Line k carries the next number of each side it belongs to, and none on the other. */
  predicate NumberedAt(h: DiffHunk, k: nat)
    requires k < |h.lines|
  {
    var line, before := h.lines[k], h.lines[..k];
    && line.oldNo == (if line.kind == Add then None else Some(h.oldStart + OldCount(before)))
    && line.newNo == (if line.kind == Del then None else Some(h.newStart + NewCount(before)))
  }

  predicate Numbered(h: DiffHunk) {
    forall k | 0 <= k < |h.lines| :: NumberedAt(h, k)
  }

  predicate AllNumbered(hunks: seq<DiffHunk>) {
    forall h <- hunks :: Numbered(h)
  }

  predicate GoodFile(f: DiffFile) {
    AllNumbered(f.hunks) && f.additions == CountHunks(f.hunks, Add) && f.deletions == CountHunks(f.hunks, Del)
  }

  predicate GoodHunk(o: OpenHunk) {
    && Numbered(o.hunk)
    && o.oldNext == o.hunk.oldStart + OldCount(o.hunk.lines)
    && o.newNext == o.hunk.newStart + NewCount(o.hunk.lines)
  }

  predicate Good(s: State) {
    && (forall f <- s.files :: GoodFile(f))
    && (s.draft.Some? ==> AllNumbered(s.draft.value.hunks))
    && (s.hunk.Some? ==> GoodHunk(s.hunk.value) && s.draft.Some?)
  }

  lemma PushKeepsGood(o: OpenHunk, kind: LineType, text: string)
    requires GoodHunk(o)
    ensures GoodHunk(Push(o, kind, text))
  {
    var before, after := o.hunk, Push(o, kind, text).hunk;
    var n := |before.lines|;
    assert after.lines[..n] == before.lines;
    forall k | 0 <= k < n ensures NumberedAt(after, k) {
      assert NumberedAt(before, k);
      assert after.lines[..k] == before.lines[..k];
    }
  }

  lemma {:induction false} CountIgnoresMarks(xs: seq<DiffLine>, ys: seq<DiffLine>, kind: LineType)
    requires |xs| == |ys| && forall k | 0 <= k < |xs| :: xs[k].kind == ys[k].kind
    ensures CountLines(xs, kind) == CountLines(ys, kind)
  {
    if xs != [] {
      CountIgnoresMarks(xs[..|xs| - 1], ys[..|ys| - 1], kind);
    }
  }

  lemma MarkKeepsGood(o: OpenHunk)
    requires GoodHunk(o)
    ensures GoodHunk(MarkLast(o))
  {
    var before, after := o.hunk, MarkLast(o).hunk;
    if before.lines != [] {
      forall kind: LineType ensures CountLines(before.lines, kind) == CountLines(after.lines, kind) {
        CountIgnoresMarks(before.lines, after.lines, kind);
      }
      forall k | 0 <= k < |after.lines| ensures NumberedAt(after, k) {
        assert NumberedAt(before, k);
        assert after.lines[..k] == before.lines[..k];
      }
    }
  }

  lemma FlushKeepsGood(s: State)
    requires Good(s)
    ensures Good(FlushHunk(s)) && FlushHunk(s).hunk.None?
    ensures Good(FlushDraft(s))
  {
    hide Numbered;
    hide PathsOf;
    hide StatusOf;
  }

  lemma HeaderKeepsHunks(d: Draft, kind: Kind)
    ensures Header(d, kind).hunks == d.hunks
  {
  }

  lemma StepKeepsGood(s: State, line: string)
    requires Good(s)
    ensures Good(Step(s, line))
  {
    hide Classify;
    hide GoodFile;
    hide Header;
    hide FlushHunk;
    hide FlushDraft;
    hide Push;
    hide MarkLast;
    hide Numbered;
    FlushKeepsGood(s);
    FlushKeepsDraft(s);
    match Classify(line)
    case Hunk(oldRange, newRange) =>
      FreshHunkIsGood(line, oldRange, newRange);
    case Marked(l, text) =>
      if s.hunk.Some? { PushKeepsGood(s.hunk.value, l, text); }
    case NoNewline =>
      if s.hunk.Some? { MarkKeepsGood(s.hunk.value); }
    case kind =>
      if s.draft.Some? { HeaderKeepsHunks(s.draft.value, kind); }
  }

  lemma FlushKeepsDraft(s: State)
    ensures FlushHunk(s).draft.Some? == s.draft.Some?
  {
  }

  lemma FreshHunkIsGood(line: string, oldRange: Range, newRange: Range)
    ensures GoodHunk(OpenedBy(line, oldRange, newRange))
  {
  }

  lemma {:induction false} StepsKeepGood(s: State, lines: seq<string>)
    requires Good(s)
    ensures Good(Steps(s, lines))
    decreases |lines|
  {
    hide Step;
    hide Good;
    if lines != [] {
      StepKeepsGood(s, lines[0]);
      StepsKeepGood(Step(s, lines[0]), lines[1..]);
    }
  }

  /** Whatever the text, lines are numbered without gaps and the totals count them. */
  lemma ParsedIsNumberedAndCounted(text: string)
    ensures forall f <- Parsed(text).files :: GoodFile(f)
    ensures Parsed(text).additions == CountFiles(Parsed(text).files, Add)
    ensures Parsed(text).deletions == CountFiles(Parsed(text).files, Del)
  {
    hide GoodFile;
    hide Lines;
    hide FlushDraft;
    StepsKeepGood(START, Lines(text));
    FlushKeepsGood(Steps(START, Lines(text)));
  }

  // ---------------------------------------------------------------- the loops

  lemma {:induction false} StepsAppend(s: State, xs: seq<string>, ys: seq<string>)
    ensures Steps(s, xs + ys) == Steps(Steps(s, xs), ys)
    decreases |xs|
  {
    hide Step;
    if xs == [] {
      assert xs + ys == ys;
    } else {
      assert (xs + ys)[0] == xs[0] && (xs + ys)[1..] == xs[1..] + ys;
      StepsAppend(Step(s, xs[0]), xs[1..], ys);
    }
  }

  lemma StepsSnoc(s: State, lines: seq<string>, i: nat)
    requires i < |lines|
    ensures Steps(s, lines[..i + 1]) == Step(Steps(s, lines[..i]), lines[i])
  {
    hide Step;
    assert lines[..i + 1] == lines[..i] + [lines[i]];
    StepsAppend(s, lines[..i], [lines[i]]);
    assert Steps(Steps(s, lines[..i]), [lines[i]]) == Step(Steps(s, lines[..i]), lines[i]);
  }

  method CountInHunks(hunks: seq<DiffHunk>) returns (additions: nat, deletions: nat)
    ensures additions == CountHunks(hunks, Add) && deletions == CountHunks(hunks, Del)
  {
    additions, deletions := 0, 0;
    for i := 0 to |hunks|
      invariant additions == CountHunks(hunks[..i], Add) && deletions == CountHunks(hunks[..i], Del)
    {
      var lines := hunks[i].lines;
      assert hunks[..i + 1][..i] == hunks[..i];
      for k := 0 to |lines|
        invariant additions == CountHunks(hunks[..i], Add) + CountLines(lines[..k], Add)
        invariant deletions == CountHunks(hunks[..i], Del) + CountLines(lines[..k], Del)
      {
        assert lines[..k + 1][..k] == lines[..k];
        if lines[k].kind == Add {
          additions := additions + 1;
        } else if lines[k].kind == Del {
          deletions := deletions + 1;
        }
      }
      assert lines[..|lines|] == lines;
    }
    assert hunks[..|hunks|] == hunks;
  }

  method FinalizeDraft(d: Draft) returns (file: DiffFile)
    ensures file == Finalize(d)
  {
    var oldPath, newPath := d.oldPath.GetOr(None), d.newPath.GetOr(None);
    if d.oldPath.None? && d.newPath.None? {
      var fallback := DiffGitLine.ParseDiffGitLine(d.gitLine);
      if fallback.Some? {
        oldPath, newPath := Some(fallback.value.0), Some(fallback.value.1);
      }
    }
    var status := Modified;
    if d.isRename {
      status := Renamed;
    } else if d.isCopy {
      status := Copied;
    } else if d.isNewFile || (oldPath.None? && newPath.Some?) {
      status := Added;
    } else if d.isDeletedFile || (newPath.None? && oldPath.Some?) {
      status := Deleted;
    }
    var additions, deletions := CountInHunks(d.hunks);
    file := DiffFile(oldPath, newPath, status, d.similarity, d.oldMode, d.newMode, d.isBinary,
                     additions, deletions, d.hunks);
  }

  method ParseUnifiedDiff(text: string) returns (r: ParsedDiff)
    ensures r == Parsed(text)
  {
    var files: seq<DiffFile> := [];
    if text == "" {
      EmptyText();
      return ParsedDiff(files, 0, 0);
    }
    var lines := Lines(text);
    var draft: Option<Draft> := None;
    var hunk: Option<OpenHunk> := None;
    for i := 0 to |lines|
      invariant State(files, draft, hunk) == Steps(START, lines[..i])
    {
      StepsSnoc(START, lines, i);
      files, draft, hunk := Advance(files, draft, hunk, lines[i]);
    }
    assert lines[..|lines|] == lines;
    ParsedIsNumberedAndCounted(text);
    if draft.Some? {
      var d := draft.value;
      if hunk.Some? {
        d := d.(hunks := d.hunks + [hunk.value.hunk]);
      }
      var file := FinalizeDraft(d);
      files := files + [file];
    }
    var additions, deletions := Totals(files);
    r := ParsedDiff(files, additions, deletions);
  }

  lemma EmptyText()
    ensures Parsed("") == ParsedDiff([], 0, 0)
  {
    assert Lines("") == [""];
    assert Steps(START, [""]) == Step(START, "");
  }

  method Totals(files: seq<DiffFile>) returns (additions: nat, deletions: nat)
    requires forall f <- files :: f.additions == CountHunks(f.hunks, Add) && f.deletions == CountHunks(f.hunks, Del)
    ensures additions == CountFiles(files, Add) && deletions == CountFiles(files, Del)
  {
    additions, deletions := 0, 0;
    for i := 0 to |files|
      invariant additions == CountFiles(files[..i], Add) && deletions == CountFiles(files[..i], Del)
    {
      assert files[..i + 1][..i] == files[..i];
      additions, deletions := additions + files[i].additions, deletions + files[i].deletions;
    }
    assert files[..|files|] == files;
  }

  /** One turn of the parser's loop. */
  method Advance(files: seq<DiffFile>, draft: Option<Draft>, hunk: Option<OpenHunk>, line: string)
    returns (files': seq<DiffFile>, draft': Option<Draft>, hunk': Option<OpenHunk>)
    ensures State(files', draft', hunk') == Step(State(files, draft, hunk), line)
  {
    hide Classify;
    files', draft', hunk' := files, draft, hunk;
    var kind := Classify(line);
    if kind.Git? {
      if draft.Some? {
        var d := draft.value;
        if hunk.Some? {
          d := d.(hunks := d.hunks + [hunk.value.hunk]);
          hunk' := None;
        }
        var file := FinalizeDraft(d);
        files' := files + [file];
      }
      draft' := Some(NewDraft(line));
      return;
    }
    if draft.None? {
      return;
    }
    var d := draft.value;
    match kind {
      case Hunk(oldRange, newRange) =>
        if hunk.Some? {
          draft' := Some(d.(hunks := d.hunks + [hunk.value.hunk]));
        }
        hunk' := Some(OpenedBy(line, oldRange, newRange));
      case NoNewline =>
        if hunk.Some? {
          hunk' := Some(MarkLast(hunk.value));
        }
      case Marked(l, t) =>
        if hunk.Some? {
          hunk' := Some(Push(hunk.value, l, t));
        }
      case Noise =>
        if hunk.Some? {
          draft' := Some(d.(hunks := d.hunks + [hunk.value.hunk]));
          hunk' := None;
        }
      case _ =>
        draft' := Some(Header(d, kind));
    }
  }
}
