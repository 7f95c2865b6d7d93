/** How the names git prints on header lines are read back. */
module DiffNames {
  import opened JsText
  import opened Utf8
  import opened GitPath
  import opened DiffParser
  import opened GitDiff
  import DiffGitLine

  predicate Plain(s: string) {
    forall c <- s :: ' ' <= c < '\U{007F}'
  }

  lemma PlainParts(a: string, b: string)
    ensures Plain(a + b) <==> Plain(a) && Plain(b)
  {
    assert forall c <- a :: c in a + b;
    assert forall c <- b :: c in a + b;
  }

  lemma {:induction false} EscapeIsPlain(bytes: seq<Byte>)
    ensures Plain(Escape(bytes))
  {
    hide EscapeByte;
    hide Plain;
    if bytes == [] {
      EmptyIsPlain();
    } else {
      EscapeByteIsPlain(bytes[0]);
      EscapeIsPlain(bytes[1..]);
      PlainParts(EscapeByte(bytes[0]), Escape(bytes[1..]));
    }
  }

  lemma EmptyIsPlain()
    ensures Plain("")
  {
  }

  lemma EscapeByteIsPlain(b: Byte)
    ensures Plain(EscapeByte(b))
  {
  }

  /** No control characters: a printed name stays on its line. */
  lemma PrintedIsPlain(path: string)
    ensures Plain(Printed(path))
  {
    if NeedsQuotes(path) {
      EscapeIsPlain(Encode(path));
      PlainParts("\"", Escape(Encode(path)));
      PlainParts("\"" + Escape(Encode(path)), "\"");
    } else {
      forall c <- path ensures ' ' <= c < '\U{007F}' {
        assert !IsUnusual(c);
      }
    }
  }

  lemma PlainHasNoBreak(s: string)
    requires Plain(s)
    ensures '\n' !in s && '\r' !in s && (s != "" ==> s[|s| - 1] != '\r')
  {
    if s != "" {
      assert s[|s| - 1] in s;
    }
  }

  // ---------------------------------------------------------------- names with a prefix

  predicate IsPrefix(pre: string) {
    pre == "a/" || pre == "b/"
  }

  lemma PrefixKeepsQuotes(pre: string, path: string)
    requires IsPrefix(pre)
    ensures NeedsQuotes(pre + path) <==> NeedsQuotes(path)
  {
    var s := pre + path;
    assert !IsUnusual('a') && !IsUnusual('b') && !IsUnusual('/');
    if c :| c in path && IsUnusual(c) {
      assert c in s;
    }
    if c :| c in s && IsUnusual(c) {
      assert c in path;
    }
  }

  lemma SpaceIsOnlyUsualSpace(path: string, i: nat)
    requires !NeedsQuotes(path) && i < |path|
    ensures IsSpace(path[i]) <==> path[i] == ' '
  {
    assert path[i] in path && !IsUnusual(path[i]);
  }

  lemma QuotedName(pre: string, path: string)
    requires IsPrefix(pre) && NeedsQuotes(path)
    ensures var q := Printed(pre + path);
      |q| >= 2 && q[0] == '"' && q[|q| - 1] == '"' && Unquoted(q) == pre + path
  {
    PrefixKeepsQuotes(pre, path);
    PrintedPathDecodes(pre + path);
  }

  lemma StripsPrefix(pre: string, path: string)
    requires IsPrefix(pre)
    ensures StripAbPrefix(pre + path) == path
  {
    assert (pre + path)[..2] == pre && (pre + path)[2..] == path;
  }

  /** Trimming drops a trailing tab. */
  lemma TrimDropsTab(s: string)
    requires s != "" && !IsSpace(s[0])
    ensures Trim(s + "\t") == Trim(s) == TrimEnd(s)
  {
    assert (s + "\t")[..|s|] == s;
  }

  lemma PlainNameTrimmed(pre: string, path: string)
    requires IsPrefix(pre) && !NeedsQuotes(path)
    ensures var t := TrimEnd(pre + path);
      && |t| >= 2 && t[..2] == pre && Trimmed(t) && t <= pre + path
      && (t == pre + path <==> EndKept(path))
  {
    var s := pre + path;
    TrimEndKeeps(s, 2);
    if path != "" {
      SpaceIsOnlyUsualSpace(path, |path| - 1);
      assert s[|s| - 1] == path[|path| - 1];
    }
    assert TrimEnd(s)[..2] == s[..2] == pre;
  }

  lemma {:induction false} TrimEndKeeps(s: string, n: nat)
    requires 0 < n <= |s| && !IsSpace(s[n - 1])
    ensures |TrimEnd(s)| >= n
  {
    if IsSpace(s[|s| - 1]) {
      TrimEndKeeps(s[..|s| - 1], n);
    }
  }

  /** A `---` or `+++` name comes back unless it is unquoted and ends in a space. */
  lemma SideIsReadIff(pre: string, path: string)
    requires IsPrefix(pre)
    ensures AbPath(Tabbed(Printed(pre + path))) == Some(path) <==> EndKept(path)
    ensures AbPath(Printed(pre + path)) == Some(path) <==> EndKept(path)
    ensures AbPath(Tabbed(Printed(pre + path))).Some? && AbPath(Printed(pre + path)).Some?
  {
    hide Unquoted;
    hide Printed;
    hide TrimEnd;
    hide NeedsQuotes;
    var q := Printed(pre + path);
    if NeedsQuotes(path) {
      QuotedName(pre, path);
      StripsPrefix(pre, path);
      TrimDropsTab(q);
      assert Trimmed(q);
      TrimmedIsFixed(q);
      assert q != "/dev/null" by { assert q[0] == '"'; }
    } else {
      PlainSideIsReadIff(pre, path);
    }
    hide Trim;
  }

  lemma PlainSideIsReadIff(pre: string, path: string)
    requires IsPrefix(pre) && !NeedsQuotes(path)
    ensures AbPath(Tabbed(Printed(pre + path))) == Some(path) <==> EndKept(path)
    ensures AbPath(Printed(pre + path)) == Some(path) <==> EndKept(path)
    ensures AbPath(Tabbed(Printed(pre + path))).Some? && AbPath(Printed(pre + path)).Some?
  {
    hide TrimEnd;
    hide NeedsQuotes;
    hide Decode;
    PrefixKeepsQuotes(pre, path);
    var s := pre + path;
    assert Printed(s) == s;
    var t := TrimEnd(s);
    PlainNameTrimmed(pre, path);
    TrimDropsTab(s);
    TrimmedIsFixed(t);
    hide Trim;
    assert t[0] == pre[0] && t != "/dev/null";
    assert Unquoted(t) == t && t == pre + t[2..];
    StripsPrefix(pre, t[2..]);
    assert t[2..] == path <==> t == s;
  }

  lemma DevNullIsNone()
    ensures AbPath("/dev/null") == None && Tabbed("/dev/null") == "/dev/null"
  {
    TrimmedIsFixed("/dev/null");
  }

  /** A rename or copy name comes back unless it is unquoted and has a space at either end. */
  lemma NameIsReadIff(path: string)
    ensures Unquoted(Printed(path)) == path <==> EndsKept(path)
  {
    PrintedPathDecodes(path);
    hide Unquoted;
    hide Printed;
    if path != "" && !NeedsQuotes(path) {
      SpaceIsOnlyUsualSpace(path, 0);
      SpaceIsOnlyUsualSpace(path, |path| - 1);
    }
  }

  // ---------------------------------------------------------------- the fallback line

  lemma GitLineOfOnePath(path: string)
    ensures DiffGitLine.Paths("diff --git " + Printed("a/" + path) + " " + Printed("b/" + path)) == Some((path, path))
  {
    hide DiffGitLine.Paths;
    PrefixKeepsQuotes("a/", path);
    PrefixKeepsQuotes("b/", path);
    if NeedsQuotes(path) {
      var a, b := Encode("a/" + path), Encode("b/" + path);
      DiffGitLine.QuotedPairIsSplit(a, b);
      EncodeDecodes("a/" + path);
      EncodeDecodes("b/" + path);
      StripsPrefix("a/", path);
      StripsPrefix("b/", path);
    } else {
      DiffGitLine.UnquotedPathIsFoundTwice(path);
      assert "diff --git " + ("a/" + path) + " " + ("b/" + path) == "diff --git " + "a/" + path + " b/" + path;
    }
  }

  lemma EncodeDecodes(s: string)
    ensures Decode(Encode(s)) == s
  {
    DecodeUndoesEncode(s, []);
    assert Encode(s) + [] == Encode(s) && s + Decode([]) == s;
  }

  // ---------------------------------------------------------------- counting spaces

  function Spaces(s: string): nat {
    if s == "" then 0 else Spaces(s[..|s| - 1]) + (if s[|s| - 1] == ' ' then 1 else 0)
  }

  function SpaceBytes(bytes: seq<Byte>): nat {
    if bytes == [] then 0 else (if bytes[0] == 0x20 then 1 else 0) + SpaceBytes(bytes[1..])
  }

  lemma {:induction false} SpacesAppend(a: string, b: string)
    ensures Spaces(a + b) == Spaces(a) + Spaces(b)
  {
    if b == "" {
      assert a + b == a;
    } else {
      assert (a + b)[..|a + b| - 1] == a + b[..|b| - 1];
      SpacesAppend(a, b[..|b| - 1]);
    }
  }

  lemma {:induction false} SpaceBytesAppend(a: seq<Byte>, b: seq<Byte>)
    ensures SpaceBytes(a + b) == SpaceBytes(a) + SpaceBytes(b)
  {
    if a == [] {
      assert a + b == b;
    } else {
      assert (a + b)[1..] == a[1..] + b;
      SpaceBytesAppend(a[1..], b);
    }
  }

  lemma SpacesOfCons(c: char, s: string)
    ensures Spaces([c] + s) == (if c == ' ' then 1 else 0) + Spaces(s)
  {
    SpacesAppend([c], s);
    assert [c][..0] == "";
  }

  lemma EscapeByteSpaces(b: Byte)
    ensures Spaces(EscapeByte(b)) == if b == 0x20 then 1 else 0
  {
    var e := EscapeByte(b);
    SpacesOfCons(e[0], e[1..]);
    assert e == [e[0]] + e[1..];
    if |e| > 1 {
      SpacesOfCons(e[1], e[2..]);
      assert e[1..] == [e[1]] + e[2..];
    }
    if |e| > 2 {
      SpacesOfCons(e[2], [e[3]]);
      SpacesOfCons(e[3], "");
      assert e[2..] == [e[2]] + [e[3]] && [e[3]] + "" == [e[3]];
    }
  }

  /** Quoting neither adds nor hides a space. */
  lemma {:induction false} EscapeKeepsSpaces(bytes: seq<Byte>)
    ensures Spaces(Escape(bytes)) == SpaceBytes(bytes)
  {
    hide EscapeByte;
    if bytes != [] {
      EscapeByteSpaces(bytes[0]);
      EscapeKeepsSpaces(bytes[1..]);
      SpacesAppend(EscapeByte(bytes[0]), Escape(bytes[1..]));
    }
  }

  lemma DecodeOneSpaces(bytes: seq<Byte>)
    requires bytes != []
    ensures var (c, n) := DecodeOne(bytes);
      SpaceBytes(bytes[..n]) == if c == ' ' then 1 else 0
  {
    var (c, n) := DecodeOne(bytes);
    NoSpaceBytes(bytes, n);
    if n == 1 {
      assert bytes[..1][1..] == [];
    }
  }

  lemma NoSpaceBytes(bytes: seq<Byte>, n: nat)
    requires bytes != [] && n == DecodeOne(bytes).1
    ensures n > 1 ==> SpaceBytes(bytes[..n]) == 0 && DecodeOne(bytes).0 >= '\U{0080}'
  {
    if n > 1 {
      forall k | 0 <= k < n ensures bytes[..n][k] >= 0x80 {
      }
      HighBytesHaveNoSpace(bytes[..n]);
    }
  }

  lemma {:induction false} HighBytesHaveNoSpace(bytes: seq<Byte>)
    requires forall k | 0 <= k < |bytes| :: bytes[k] >= 0x80
    ensures SpaceBytes(bytes) == 0
  {
    if bytes != [] {
      HighBytesHaveNoSpace(bytes[1..]);
    }
  }

  /** Decoding neither adds nor loses a space, well-formed or not. */
  lemma {:induction false} DecodeKeepsSpaces(bytes: seq<Byte>)
    ensures Spaces(Decode(bytes)) == SpaceBytes(bytes)
  {
    hide DecodeOne;
    if bytes != [] {
      var (c, n) := DecodeOne(bytes);
      DecodeOneSpaces(bytes);
      DecodeKeepsSpaces(bytes[n..]);
      SpacesOfCons(c, Decode(bytes[n..]));
      assert bytes == bytes[..n] + bytes[n..];
      SpaceBytesAppend(bytes[..n], bytes[n..]);
    }
  }

  lemma SpacesOfPath(path: string)
    ensures Spaces(path) == SpaceBytes(Encode(path))
    ensures Spaces(Printed(path)) == Spaces(path)
  {
    EncodeDecodes(path);
    DecodeKeepsSpaces(Encode(path));
    var e := Escape(Encode(path));
    EscapeKeepsSpaces(Encode(path));
    SpacesOfCons('"', e);
    SpacesAppend("\"" + e, "\"");
    assert "\""[..0] == "";
  }

  // ---------------------------------------------------------------- a quoted name cut short

  /** Cutting quoted text before a quote leaves whole bytes and a backslash. */
  lemma {:induction false} CutBeforeQuote(bytes: seq<Byte>, k: nat) returns (m: nat)
    requires k < |Escape(bytes)| && Escape(bytes)[k] == '"'
    ensures m < |bytes| && Escape(bytes)[..k] == Escape(bytes[..m]) + "\\"
    decreases |bytes|
  {
    var e, rest := EscapeByte(bytes[0]), bytes[1..];
    CutsByte(bytes[0]);
    hide EscapeByte;
    if k < |e| {
      m := 0;
      assert Escape(bytes)[..k] == e[..k];
    } else {
      var n := CutBeforeQuote(rest, k - |e|);
      m := n + 1;
      assert bytes[..m][1..] == rest[..n];
      assert Escape(bytes)[..k] == e + Escape(rest)[..k - |e|];
    }
  }

  lemma CutsByte(b: Byte)
    ensures forall k: nat | k < |EscapeByte(b)| && EscapeByte(b)[k] == '"' :: EscapeByte(b)[..k] == "\\"
  {
  }

  lemma UnescapeOfCut(bytes: seq<Byte>)
    ensures Unescape(Escape(bytes) + "\\") == bytes + [0x5C]
  {
    UnescapeUndoesEscape(bytes, "\\");
    assert "\\"[1..] == "";
  }

  lemma TrimmedHasNoMoreSpaces(s: string)
    ensures Spaces(Trim(s)) <= Spaces(s)
  {
    TrimStartSpaces(s);
    TrimEndSpaces(TrimStart(s));
  }

  lemma {:induction false} TrimStartSpaces(s: string)
    ensures Spaces(TrimStart(s)) <= Spaces(s)
  {
    if s != "" && IsSpace(s[0]) {
      TrimStartSpaces(s[1..]);
      assert s == [s[0]] + s[1..];
      SpacesOfCons(s[0], s[1..]);
    }
  }

  lemma {:induction false} TrimEndSpaces(s: string)
    ensures Spaces(TrimEnd(s)) <= Spaces(s)
  {
    if s != "" && IsSpace(s[|s| - 1]) {
      TrimEndSpaces(s[..|s| - 1]);
    }
  }

  lemma StripSpaces(s: string)
    ensures Spaces(StripAbPrefix(s)) <= Spaces(s)
  {
    if |s| >= 2 {
      SpacesAppend(s[..2], s[2..]);
      assert s == s[..2] + s[2..];
    }
  }

  lemma QuotedCutSpaces(bytes: seq<Byte>, s: string)
    requires IsQuoted(s) && s <= Quoted(bytes) && |s| < |Quoted(bytes)|
    ensures Spaces(Decode(Unescape(s[1..|s| - 1]))) <= Spaces(s)
  {
    hide Escape;
    hide Decode;
    hide Unescape;
    hide Spaces;
    var e, k := Escape(bytes), |s| - 2;
    assert Quoted(bytes)[1..|s| - 1] == e[..k] == s[1..|s| - 1];
    assert Quoted(bytes)[|s| - 1] == s[|s| - 1] == e[k];
    var m := CutBeforeQuote(bytes, k);
    UnescapeOfCut(bytes[..m]);
    DecodeKeepsSpaces(bytes[..m] + [0x5C]);
    SpaceBytesAppend(bytes[..m], [0x5C]);
    EscapeKeepsSpaces(bytes[..m]);
    SpacesAppend(Escape(bytes[..m]), "\\");
    SpacesOfCons('"', e[..k]);
    SpacesAppend("\"" + e[..k], "\"");
    assert s == "\"" + e[..k] + "\"";
    assert SpaceBytes([0x5C]) == SpaceBytes([0x5C][1..]);
  }

  /** A printed name cut short decodes to a text with no more spaces than were left. */
  lemma CutNameSpaces(path: string, n: nat)
    requires n < |Printed(path)|
    ensures Spaces(AbPath(Printed(path)[..n]).GetOr("")) <= Spaces(Printed(path)[..n])
  {
    hide Spaces;
    hide StripAbPrefix;
    hide Decode;
    hide Unescape;
    hide Trim;
    var q := Printed(path);
    var cut := q[..n];
    var t := Trim(Trim(cut));
    TrimmedHasNoMoreSpaces(cut);
    TrimmedHasNoMoreSpaces(Trim(cut));
    if AbPath(cut).Some? {
      StripSpaces(Unquoted(Trim(cut)));
      if IsQuoted(t) {
        QuoteMarksTheCut(path, n);
        QuotedCutSpaces(Encode(path), t);
      }
    } else {
      NoSpaces();
    }
  }

  lemma NoSpaces()
    ensures Spaces("") == 0
  {
  }

  lemma QuoteMarksTheCut(path: string, n: nat)
    requires n < |Printed(path)|
    ensures var t := Trim(Trim(Printed(path)[..n]));
      IsQuoted(t) ==> NeedsQuotes(path) && t <= Printed(path) && |t| <= n
  {
    var q := Printed(path);
    var cut := q[..n];
    var t := Trim(Trim(cut));
    if IsQuoted(t) {
      assert t[0] == '"' && t[0] in t;
      TrimIsInside(Trim(cut), '"');
      TrimIsInside(cut, '"');
      assert '"' in q && IsUnusual('"');
      assert cut[0] == '"';
      TrimEndIsFixed(cut);
    }
    hide Trim;
  }

  lemma TrimEndIsFixed(s: string)
    requires s != "" && !IsSpace(s[0])
    ensures Trim(Trim(s)) == Trim(s) == TrimEnd(s)
  {
    TrimEndKeeps(s, 1);
    TrimmedIsFixed(TrimEnd(s));
  }

  /** Splitting a "Binary files" line inside the old name gives a wrong old path. */
  lemma CutNameIsWrong(path: string, n: nat)
    requires n < |Printed("a/" + path)| && Printed("a/" + path)[n] == ' '
    ensures AbPath(Printed("a/" + path)[..n]) != Some(path)
  {
    hide Spaces;
    hide AbPath;
    hide Printed;
    var q := Printed("a/" + path);
    CutNameSpaces("a/" + path, n);
    SpacesOfPath("a/" + path);
    assert "a/" + path == ['a'] + (['/'] + path);
    SpacesOfCons('a', ['/'] + path);
    SpacesOfCons('/', path);
    assert q == q[..n] + ([' '] + q[n + 1..]);
    SpacesAppend(q[..n], [' '] + q[n + 1..]);
    SpacesOfCons(' ', q[n + 1..]);
  }

  // ---------------------------------------------------------------- "Binary files ... and ... differ"

  lemma AndAfter(left: string, right: string)
    ensures OccursAt(left + " and " + right, " and ", |left|)
  {
    assert (left + " and " + right)[|left|..|left| + 5] == " and ";
  }

  lemma EarlierAnd(left: string, right: string, i: nat)
    requires i < |left|
    ensures OccursAt(left + " and " + right, " and ", i) <==> OccursAt(left + " ", " and ", i)
  {
    var body, short := left + " and " + right, left + " ";
    if OccursAt(body, " and ", i) {
      var j := |left| - i;
      assert j < 5 ==> body[i..i + 5][j] == body[|left|] == ' ';
      assert i + 5 <= |short|;
      assert short[i..i + 5] == body[i..i + 5];
    }
    if OccursAt(short, " and ", i) {
      assert short[i..i + 5] == body[i..i + 5];
    }
  }

  /** The first " and " stands between the names, or inside the old one. */
  lemma FirstAnd(left: string, right: string)
    ensures var mid := IndexOf(left + " and " + right, " and ", 0);
      if NoAnd(left) then mid == |left| else 0 <= mid < |left| && left[mid] == ' '
  {
    hide IndexOf;
    var body, short := left + " and " + right, left + " ";
    var mid, i := IndexOf(body, " and ", 0), IndexOf(short, " and ", 0);
    AndAfter(left, right);
    assert 0 <= mid <= |left|;
    if mid < |left| {
      EarlierAnd(left, right, mid);
      assert body[mid..mid + 5][0] == ' ';
    }
    if i >= 0 {
      EarlierAnd(left, right, i);
    }
  }

  lemma SidesOfLine(left: string, right: string)
    ensures var line := "Binary files " + left + " and " + right + " differ";
      && StartsWith(line, "Binary files ") && EndsWith(line, " differ")
      && BinarySides(line).Some?
      && (NoAnd(left) ==> BinarySides(line).value == (AbPath(left), AbPath(right)))
      && (!NoAnd(left) ==>
        exists n | 0 <= n < |left| && left[n] == ' ' :: BinarySides(line).value.0 == AbPath(left[..n]))
  {
    hide IndexOf;
    hide AbPath;
    hide NoAnd;
    var body := left + " and " + right;
    var line := "Binary files " + left + " and " + right + " differ";
    LineAround(left, right);
    FirstAnd(left, right);
    var mid := IndexOf(body, " and ", 0);
    assert body[..mid] == left[..mid];
    assert left[..|left|] == left;
    assert NoAnd(left) ==> body[mid + 5..] == right;
  }

  lemma LineAround(left: string, right: string)
    ensures var line := "Binary files " + left + " and " + right + " differ";
      && StartsWith(line, "Binary files ") && EndsWith(line, " differ") && |line| >= 20
      && line[13..|line| - 7] == left + " and " + right
  {
    var line := "Binary files " + left + " and " + right + " differ";
    assert line[..13] == "Binary files " && line[|line| - 7..] == " differ";
  }
}
