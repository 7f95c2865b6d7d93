/** The fallback paths in a `diff --git` line. */
module DiffGitLine {
  import opened JsText
  import opened Utf8
  import opened GitPath

  const GIT_PREFIX := "diff --git "
  const MARKER := " b/"

  function Tail(s: string): string {
    if |s| >= 2 then s[2..] else ""
  }

  /** Splitting at i gives `a/` and `b/` followed by the same text. */
  predicate EqualHalves(rest: string, i: nat) {
    OccursAt(rest, MARKER, i) && StartsWith(rest[..i], "a/") && Tail(rest[..i]) == Tail(rest[i + 1..])
  }

  lemma OnlyTheMiddleSplits(rest: string, i: nat)
    requires EqualHalves(rest, i)
    ensures |rest| == 2 * i + 1
  {
  }

  /** The old and the new path. */
  function Paths(line: string): Option<(string, string)> {
    if !StartsWith(line, GIT_PREFIX) then None
    else
      var rest := line[|GIT_PREFIX|..];
      if StartsWith(rest, "\"") then
        var aEnd := ClosingQuote(rest, 1);
        if aEnd < 0 then None
        else
          Some((StripAbPrefix(Unquoted(rest[..aEnd + 1])), StripAbPrefix(Unquoted(Trim(rest[aEnd + 1..])))))
      else
        var middle := |rest| / 2;
        if EqualHalves(rest, middle) then Some((rest[2..middle], rest[2..middle]))
        else FirstSplit(rest)
  }

  /** The best effort for halves that never agree. */
  function FirstSplit(rest: string): Option<(string, string)> {
    var i := IndexOf(rest, MARKER, 0);
    if i < 0 then None
    else
      var a, b := rest[..i], rest[i + 1..];
      Some((if StartsWith(a, "a/") then a[2..] else a, if StartsWith(b, "b/") then b[2..] else b))
  }

  method ParseDiffGitLine(line: string) returns (r: Option<(string, string)>)
    ensures r == Paths(line)
  {
    if !StartsWith(line, GIT_PREFIX) {
      return None;
    }
    var rest := line[|GIT_PREFIX|..];
    if StartsWith(rest, "\"") {
      var aEnd := FindClosingQuote(rest, 0);
      if aEnd < 0 {
        return None;
      }
      var a := UnquoteGitPath(rest[..aEnd + 1]);
      var b := UnquoteGitPath(Trim(rest[aEnd + 1..]));
      return Some((StripAbPrefix(a), StripAbPrefix(b)));
    }
    r := SplitUnquoted(rest);
  }

  lemma OnlyMarkersSplit(rest: string, start: nat)
    ensures var i := IndexOf(rest, MARKER, start);
      forall k: nat | start <= k && (i == -1 || k < i) :: !EqualHalves(rest, k)
  {
    hide IndexOf;
  }

  lemma SplitsAtMarker(rest: string, i: nat)
    requires OccursAt(rest, MARKER, i)
    ensures EqualHalves(rest, i) <==> StartsWith(rest[..i], "a/") && Tail(rest[..i]) == Tail(rest[i + 1..])
    ensures EqualHalves(rest, i) ==> i == |rest| / 2 && Tail(rest[..i]) == rest[2..i] == Tail(rest[i + 1..])
  {
  }

  /** The search loop: it tries every marker until the halves are equal. */
  method SplitUnquoted(rest: string) returns (r: Option<(string, string)>)
    ensures r ==
      if EqualHalves(rest, |rest| / 2) then Some((rest[2..|rest| / 2], rest[2..|rest| / 2])) else FirstSplit(rest)
  {
    hide IndexOf;
    hide EqualHalves;
    hide FirstSplit;
    var start := 0;
    while true
      invariant start <= |rest|
      invariant forall k | 0 <= k < start :: !EqualHalves(rest, k)
      decreases |rest| - start
    {
      var i := IndexOf(rest, MARKER, start);
      OnlyMarkersSplit(rest, start);
      if i < 0 {
        break;
      }
      var a, b := rest[..i], rest[i + 1..];
      if StartsWith(a, "a/") && Tail(a) == Tail(b) {
        SplitsAtMarker(rest, i);
        return Some((Tail(a), Tail(b)));
      }
      SplitsAtMarker(rest, i);
      start := i + 1;
    }
    r := FirstSplit(rest);
  }

  /** However often " b/" occurs in an unquoted path, the line gives it twice. */
  lemma UnquotedPathIsFoundTwice(path: string)
    ensures Paths(GIT_PREFIX + "a/" + path + " b/" + path) == Some((path, path))
  {
    hide FirstSplit;
    hide EqualHalves;
    var rest := "a/" + path + " b/" + path;
    assert GIT_PREFIX + "a/" + path + " b/" + path == GIT_PREFIX + rest;
    PrefixThenRest(GIT_PREFIX, rest);
    assert !StartsWith(rest, "\"");
    HalvesAreEqual(path);
  }

  lemma HalvesAreEqual(path: string)
    ensures var rest := "a/" + path + " b/" + path;
      EqualHalves(rest, |path| + 2) && |rest| / 2 == |path| + 2 && rest[2..|path| + 2] == path
  {
    var rest, i := "a/" + path + " b/" + path, |path| + 2;
    assert rest[..i] == "a/" + path && rest[i + 1..] == "b/" + path;
    assert rest[i..i + 3] == MARKER;
    assert rest[..i][..2] == "a/" && rest[..i][2..] == path && rest[i + 1..][2..] == path;
    assert rest[2..i] == path;
  }

  /** A quoted old path ends at its own closing quote, and both paths come out. */
  lemma QuotedPairIsSplit(a: seq<Byte>, b: seq<Byte>)
    ensures Paths(GIT_PREFIX + Quoted(a) + " " + Quoted(b)) ==
      Some((StripAbPrefix(Decode(a)), StripAbPrefix(Decode(b))))
  {
    var qa, qb := Quoted(a), Quoted(b);
    ClosingQuoteIsFound(a, " " + qb);
    UnquoteUndoesQuote(a);
    UnquoteUndoesQuote(b);
    assert Trimmed(qb);
    ClosedPairIsSplit(qa, qb);
  }

  lemma ClosedPairIsSplit(a: string, b: string)
    requires a != "" && a[0] == '"' && Trimmed(b)
    requires ClosingQuote(a + (" " + b), 1) == |a| - 1
    ensures Paths(GIT_PREFIX + a + " " + b) == Some((StripAbPrefix(Unquoted(a)), StripAbPrefix(Unquoted(b))))
  {
    hide ClosingQuote;
    hide Unquoted;
    hide StripAbPrefix;
    hide Trim;
    hide EqualHalves;
    hide FirstSplit;
    var rest := a + (" " + b);
    assert GIT_PREFIX + a + " " + b == GIT_PREFIX + rest;
    PrefixThenRest(GIT_PREFIX, rest);
    ConcatParts(a, " " + b);
    assert StartsWith(rest, "\"") by { assert rest[..1] == "\""; }
    TrimmedAfterSpace(b);
  }

  lemma ConcatParts(a: string, b: string)
    ensures (a + b)[..|a|] == a && (a + b)[|a|..] == b
  {
  }

  lemma TrimmedAfterSpace(s: string)
    requires Trimmed(s)
    ensures Trim(" " + s) == s
  {
    TrimmedIsFixed(s);
    assert (" " + s)[1..] == s;
  }
}
