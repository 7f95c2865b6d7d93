/** Git's quoted paths: the decoder, and the quoting it has to undo. */
module GitPath {
  import opened JsText
  import opened Utf8

  // ---------------------------------------------------------------- the end of a quoted path

  /** The first quote at or after i that no backslash escapes, or -1. */
  function ClosingQuote(s: string, i: nat): (r: int)
    ensures r == -1 || i <= r < |s|
    decreases |s| - i
  {
    if i >= |s| then -1
    else if s[i] == '\\' then ClosingQuote(s, i + 2)
    else if s[i] == '"' then i
    else ClosingQuote(s, i + 1)
  }

  method FindClosingQuote(s: string, openAt: nat) returns (r: int)
    ensures r == ClosingQuote(s, openAt + 1)
  {
    var i := openAt + 1;
    while i < |s|
      invariant ClosingQuote(s, openAt + 1) == ClosingQuote(s, i)
      decreases |s| - i
    {
      if s[i] == '\\' {
        i := i + 2;
        continue;
      }
      if s[i] == '"' {
        return i;
      }
      i := i + 1;
    }
    return -1;
  }

  // ---------------------------------------------------------------- decoding

  function Letter(c: char): Option<Byte> {
    match c
    case 'n' => Some(0x0A)
    case 't' => Some(0x09)
    case '"' => Some(0x22)
    case '\\' => Some(0x5C)
    case 'a' => Some(0x07)
    case 'b' => Some(0x08)
    case 'f' => Some(0x0C)
    case 'v' => Some(0x0B)
    case 'r' => Some(0x0D)
    case _ => None
  }

  predicate IsOctal(c: char) {
    '0' <= c <= '7'
  }

  /** How many of the first `most` characters are octal digits, up to the first other one. */
  function OctalRun(s: string, most: nat): (n: nat)
    ensures n <= most && n <= |s|
    ensures forall c <- s[..n] :: IsOctal(c)
    decreases most
  {
    if most == 0 || s == "" || !IsOctal(s[0]) then 0
    else
      var n := OctalRun(s[1..], most - 1);
      assert s[..1 + n] == [s[0]] + s[1..][..n];
      1 + n
  }

  function OctalValue(digits: string): nat
    requires forall c <- digits :: IsOctal(c)
  {
    if digits == "" then 0
    else
      assert IsOctal(digits[|digits| - 1]);
      8 * OctalValue(digits[..|digits| - 1]) + (digits[|digits| - 1] as int - '0' as int)
  }

  /** The bytes of a character outside an escape. The decoder walks UTF-16 code units, and half
      of a surrogate pair encodes as U+FFFD. */
  function RawBytes(c: char): seq<Byte> {
    if c < '\U{10000}' then EncodeChar(c)
    else EncodeChar(REPLACEMENT) + EncodeChar(REPLACEMENT)
  }

  /** The bytes of a character after a backslash that starts no known escape: the low byte of its
      first code unit, then the second unit if there is one. */
  function UnknownEscape(c: char): seq<Byte> {
    if c < '\U{10000}' then [c as int % 256]
    else [(c as int - 0x1_0000) / 1024 % 256] + EncodeChar(REPLACEMENT)
  }

  /** What the text starts with, a character or an escape: its bytes and its length. */
  function FirstUnit(s: string): (r: (seq<Byte>, nat))
    requires s != ""
    ensures 1 <= r.1 <= |s|
  {
    if s[0] == '\\' && |s| > 1 then
      if Letter(s[1]).Some? then ([Letter(s[1]).value], 2)
      else if IsOctal(s[1]) then
        var n := OctalRun(s[1..], 3);
        ([OctalValue(s[1..][..n]) % 256], 1 + n)
      else (UnknownEscape(s[1]), 2)
    else (RawBytes(s[0]), 1)
  }

  /** The text inside the quotes, as bytes. */
  function Unescape(s: string): seq<Byte> {
    if s == "" then []
    else
      var (bytes, n) := FirstUnit(s);
      bytes + Unescape(s[n..])
  }

  lemma UnescapeStep(s: string, i: nat, next: nat, done: seq<Byte>, unit: seq<Byte>)
    requires i < next <= |s| && FirstUnit(s[i..]) == (unit, next - i)
    ensures done + Unescape(s[i..]) == done + unit + Unescape(s[next..])
  {
    hide FirstUnit;
    assert s[i..][next - i..] == s[next..];
    assert done + (unit + Unescape(s[next..])) == done + unit + Unescape(s[next..]);
  }

  predicate IsQuoted(s: string) {
    |s| >= 2 && s[0] == '"' && s[|s| - 1] == '"'
  }

  function Unquoted(raw: string): string {
    var s := Trim(raw);
    if IsQuoted(s) then Decode(Unescape(s[1..|s| - 1])) else s
  }

  /** The decoder's loop: i walks the text, and an escape moves it by more than one. */
  method UnescapeLoop(inner: string) returns (bytes: seq<Byte>)
    ensures bytes == Unescape(inner)
  {
    bytes := [];
    var i := 0;
    assert inner[0..] == inner && bytes + Unescape(inner) == Unescape(inner);
    while i < |inner|
      invariant i <= |inner|
      invariant Unescape(inner) == bytes + Unescape(inner[i..])
      decreases |inner| - i
    {
      hide Unescape;
      hide FirstUnit;
      var unit, next := DecodeUnit(inner, i);
      UnescapeStep(inner, i, next, bytes, unit);
      bytes := bytes + unit;
      i := next;
    }
  }

  method DecodeUnit(inner: string, i: nat) returns (unit: seq<Byte>, next: nat)
    requires i < |inner|
    ensures i < next <= |inner| && FirstUnit(inner[i..]) == (unit, next - i)
  {
    hide UnknownEscape;
    hide RawBytes;
    hide OctalValue;
    hide OctalRun;
    hide Letter;
    ghost var rest := inner[i..];
    var c := inner[i];
    if c == '\\' && i + 1 < |inner| {
      var n := inner[i + 1];
      var simple := Letter(n);
      if simple.Some? {
        return [simple.value], i + 2;
      } else if IsOctal(n) {
        next := OctalEnd(inner, i + 1);
        assert rest[1..] == inner[i + 1..];
        assert rest[1..][..next - i - 1] == inner[i + 1..next];
        unit := [OctalValue(inner[i + 1..next]) % 256];
      } else {
        return UnknownEscape(n), i + 2;
      }
    } else {
      return RawBytes(c), i + 1;
    }
  }

  method OctalEnd(s: string, start: nat) returns (j: nat)
    requires start <= |s|
    ensures start <= j <= |s| && j - start == OctalRun(s[start..], 3)
  {
    j := start;
    while j < |s| && j - start < 3 && IsOctal(s[j])
      invariant start <= j <= |s| && j - start <= 3
      invariant OctalRun(s[start..], 3) == j - start + OctalRun(s[j..], 3 - (j - start))
      decreases |s| - j
    {
      assert s[j..][1..] == s[j + 1..];
      j := j + 1;
    }
  }

  method UnquoteGitPath(raw: string) returns (path: string)
    ensures path == Unquoted(raw)
  {
    var s := Trim(raw);
    if !IsQuoted(s) {
      return s;
    }
    var bytes := UnescapeLoop(s[1..|s| - 1]);
    path := Decode(bytes);
  }

  // ---------------------------------------------------------------- quoting

  function LetterOf(b: Byte): Option<char> {
    match b
    case 0x0A => Some('n')
    case 0x09 => Some('t')
    case 0x22 => Some('"')
    case 0x5C => Some('\\')
    case 0x07 => Some('a')
    case 0x08 => Some('b')
    case 0x0C => Some('f')
    case 0x0B => Some('v')
    case 0x0D => Some('r')
    case _ => None
  }

  function OctalDigit(d: nat): char
    requires d < 8
  {
    '0' + d as char
  }

  /** Git's quoting of one byte. */
  function EscapeByte(b: Byte): (s: string)
    ensures s != ""
  {
    if LetterOf(b).Some? then ['\\', LetterOf(b).value]
    else if 0x20 <= b < 0x7F then [b as char]
    else ['\\', OctalDigit(b / 64), OctalDigit(b / 8 % 8), OctalDigit(b % 8)]
  }

  function Escape(bytes: seq<Byte>): string {
    if bytes == [] then "" else EscapeByte(bytes[0]) + Escape(bytes[1..])
  }

  function Quoted(bytes: seq<Byte>): string {
    "\"" + Escape(bytes) + "\""
  }

  lemma FirstUnitOfEscapeByte(b: Byte, rest: string)
    ensures FirstUnit(EscapeByte(b) + rest) == ([b], |EscapeByte(b)|)
  {
    var s := EscapeByte(b) + rest;
    if LetterOf(b).Some? {
      assert s[0] == '\\' && s[1] == LetterOf(b).value;
    } else if 0x20 <= b < 0x7F {
      assert s[0] == b as char;
      assert RawBytes(s[0]) == [b];
    } else {
      FirstUnitOfOctal(b, rest);
    }
  }

  lemma FirstUnitOfOctal(b: Byte, rest: string)
    ensures FirstUnit(['\\', OctalDigit(b / 64), OctalDigit(b / 8 % 8), OctalDigit(b % 8)] + rest) == ([b], 4)
  {
    var x, y, z := OctalDigit(b / 64), OctalDigit(b / 8 % 8), OctalDigit(b % 8);
    var s := ['\\', x, y, z] + rest;
    assert s[1..] == [x, y, z] + rest;
    OctalRunOfThree(x, y, z, rest);
    OctalValueOfThree(b);
    assert s[1..][..3] == [x, y, z];
  }

  lemma OctalRunOfThree(x: char, y: char, z: char, rest: string)
    requires IsOctal(x) && IsOctal(y) && IsOctal(z)
    ensures OctalRun([x, y, z] + rest, 3) == 3
  {
    var s := [x, y, z] + rest;
    assert OctalRun(s, 3) == 1 + OctalRun(s[1..], 2);
    assert OctalRun(s[1..], 2) == 1 + OctalRun(s[1..][1..], 1);
    assert OctalRun(s[1..][1..], 1) == 1 + OctalRun(s[1..][1..][1..], 0);
  }

  lemma OctalValueOfThree(b: Byte)
    ensures OctalValue([OctalDigit(b / 64), OctalDigit(b / 8 % 8), OctalDigit(b % 8)]) == b
  {
    var x, y, z := OctalDigit(b / 64), OctalDigit(b / 8 % 8), OctalDigit(b % 8);
    assert [x, y, z][..2] == [x, y] && [x, y][..1] == [x] && [x][..0] == "";
    assert OctalValue([x]) == b / 64;
    assert OctalValue([x, y]) == b / 8;
  }

  lemma {:induction false} UnescapeUndoesEscape(bytes: seq<Byte>, rest: string)
    ensures Unescape(Escape(bytes) + rest) == bytes + Unescape(rest)
  {
    hide FirstUnit;
    hide EscapeByte;
    if bytes == [] {
      assert Escape(bytes) + rest == rest;
    } else {
      var tail := Escape(bytes[1..]) + rest;
      assert Escape(bytes) + rest == EscapeByte(bytes[0]) + tail;
      FirstUnitOfEscapeByte(bytes[0], tail);
      assert (EscapeByte(bytes[0]) + tail)[|EscapeByte(bytes[0])|..] == tail;
      UnescapeUndoesEscape(bytes[1..], rest);
      assert [bytes[0]] + (bytes[1..] + Unescape(rest)) == bytes + Unescape(rest);
    }
  }

  /** Decoding inverts the quoting of every byte string. */
  lemma UnquoteUndoesQuote(bytes: seq<Byte>)
    ensures Unescape(Escape(bytes)) == bytes
    ensures Unquoted(Quoted(bytes)) == Decode(bytes)
  {
    UnescapeUndoesEscape(bytes, "");
    assert Escape(bytes) + "" == Escape(bytes);
    var q := Quoted(bytes);
    assert Trimmed(q);
    TrimmedIsFixed(q);
    assert q[1..|q| - 1] == Escape(bytes);
  }

  lemma ClosingQuoteSkipsByte(s: string, i: nat, b: Byte)
    requires i + |EscapeByte(b)| <= |s| && s[i..i + |EscapeByte(b)|] == EscapeByte(b)
    ensures ClosingQuote(s, i) == ClosingQuote(s, i + |EscapeByte(b)|)
  {
    var e := EscapeByte(b);
    assert s[i] == e[0];
    if |e| == 2 {
      assert ClosingQuote(s, i) == ClosingQuote(s, i + 2);
    } else if |e| == 4 {
      assert s[i + 2] == s[i..i + 4][2] && s[i + 3] == s[i..i + 4][3];
      assert ClosingQuote(s, i) == ClosingQuote(s, i + 2);
    }
  }

  lemma {:induction false} ClosingQuoteSkips(s: string, i: nat, bytes: seq<Byte>)
    requires i + |Escape(bytes)| <= |s| && s[i..i + |Escape(bytes)|] == Escape(bytes)
    ensures ClosingQuote(s, i) == ClosingQuote(s, i + |Escape(bytes)|)
    decreases |bytes|
  {
    hide EscapeByte;
    hide ClosingQuote;
    if bytes != [] {
      var e, tail := EscapeByte(bytes[0]), Escape(bytes[1..]);
      var all := s[i..i + |e| + |tail|];
      assert all == e + tail;
      assert s[i..i + |e|] == all[..|e|] && s[i + |e|..i + |e| + |tail|] == all[|e|..];
      ClosingQuoteSkipsByte(s, i, bytes[0]);
      ClosingQuoteSkips(s, i + |e|, bytes[1..]);
    }
  }

  /** Whatever follows a quoted path, its closing quote is found where the path ends. */
  lemma ClosingQuoteIsFound(bytes: seq<Byte>, rest: string)
    ensures ClosingQuote(Quoted(bytes) + rest, 1) == |Quoted(bytes)| - 1
  {
    var s := Quoted(bytes) + rest;
    assert s[1..1 + |Escape(bytes)|] == Escape(bytes);
    ClosingQuoteSkips(s, 1, bytes);
    assert s[|Quoted(bytes)| - 1] == '"';
  }

  // ---------------------------------------------------------------- paths as git prints them

  predicate IsUnusual(c: char) {
    c < ' ' || c == '"' || c == '\\' || c >= '\U{007F}'
  }

  predicate NeedsQuotes(path: string) {
    exists c <- path :: IsUnusual(c)
  }

  function Printed(path: string): string {
    if NeedsQuotes(path) then Quoted(Encode(path)) else path
  }

  /** A printed path decodes to itself unless it stands unquoted between spaces. */
  lemma PrintedPathDecodes(path: string)
    ensures Unquoted(Printed(path)) == path <==> NeedsQuotes(path) || Trimmed(path)
  {
    hide Trim;
    hide Quoted;
    if NeedsQuotes(path) {
      UnquoteUndoesQuote(Encode(path));
      DecodeUndoesEncode(path, []);
      assert Encode(path) + [] == Encode(path) && path + Decode([]) == path;
    } else {
      TrimmedIsFixed(path);
      TrimIsInside(path, '"');
      assert IsUnusual('"');
      QuotedHasQuote(Trim(path));
    }
  }

  lemma QuotedHasQuote(s: string)
    ensures IsQuoted(s) ==> '"' in s
  {
    if IsQuoted(s) {
      assert s[0] in s;
    }
  }

  lemma TrimIsInside(s: string, c: char)
    ensures c in Trim(s) ==> c in s
  {
    TrimStartIsInside(s, c);
    var t := TrimStart(s);
    if c in TrimEnd(t) {
      assert TrimEnd(t) <= t;
    }
  }

  lemma {:induction false} TrimStartIsInside(s: string, c: char)
    ensures c in TrimStart(s) ==> c in s
  {
    if s != "" && IsSpace(s[0]) {
      TrimStartIsInside(s[1..], c);
    }
  }

  // ---------------------------------------------------------------- quoting without octal escapes

  /** Git's quoting with `core.quotePath` off: characters beyond ASCII stand for themselves. */
  function EscapeRaw(path: string): string {
    if path == "" then ""
    else (if path[0] < '\U{0080}' then EscapeByte(path[0] as int) else [path[0]]) + EscapeRaw(path[1..])
  }

  /** What decoding makes of such a path. */
  function Halved(path: string): string {
    if path == "" then ""
    else (if path[0] < '\U{10000}' then [path[0]] else [REPLACEMENT, REPLACEMENT]) + Halved(path[1..])
  }

  lemma FirstUnitOfRaw(c: char, rest: string)
    requires c >= '\U{0080}'
    ensures FirstUnit([c] + rest) == (RawBytes(c), 1)
  {
  }

  lemma EncodeOfHalf(c: char, rest: string)
    ensures RawBytes(c) + Encode(rest) == Encode((if c < '\U{10000}' then [c] else [REPLACEMENT, REPLACEMENT]) + rest)
  {
    hide EncodeChar;
    assert ([c] + rest)[1..] == rest;
    var twice := [REPLACEMENT, REPLACEMENT] + rest;
    assert twice[1..] == [REPLACEMENT] + rest && twice[1..][1..] == rest;
  }

  lemma {:induction false} UnescapeOfRaw(path: string)
    ensures Unescape(EscapeRaw(path)) == Encode(Halved(path))
  {
    hide FirstUnit;
    hide EscapeByte;
    hide EncodeChar;
    hide RawBytes;
    if path != "" {
      var c, tail := path[0], EscapeRaw(path[1..]);
      UnescapeOfRaw(path[1..]);
      EncodeOfHalf(c, Halved(path[1..]));
      if c < '\U{0080}' {
        FirstUnitOfEscapeByte(c as int, tail);
        assert (EscapeByte(c as int) + tail)[|EscapeByte(c as int)|..] == tail;
        AsciiIsOneByte(c);
      } else {
        FirstUnitOfRaw(c, tail);
        assert ([c] + tail)[1..] == tail;
      }
    }
  }

  lemma AsciiIsOneByte(c: char)
    requires c < '\U{0080}'
    ensures RawBytes(c) == [c as int]
  {
  }

  lemma {:induction false} HalvedIsSameIff(path: string)
    ensures |Halved(path)| >= |path|
    ensures Halved(path) == path <==> forall c <- path :: c < '\U{10000}'
  {
    if path != "" {
      var c, tail := path[0], path[1..];
      HalvedIsSameIff(tail);
      assert path == [c] + tail;
      if c < '\U{10000}' {
        assert Halved(path) == [c] + Halved(tail);
        assert ([c] + Halved(tail))[1..] == Halved(tail);
        assert forall x <- tail :: x in path;
      } else {
        assert |Halved(path)| == 2 + |Halved(tail)|;
        assert c in path;
      }
    }
  }

  /** Without octal escapes the decoder restores exactly the paths inside the basic plane. */
  lemma RawQuotingDecodesIff(path: string)
    ensures Unquoted("\"" + EscapeRaw(path) + "\"") == path <==> forall c <- path :: c < '\U{10000}'
  {
    var q := "\"" + EscapeRaw(path) + "\"";
    assert Trimmed(q);
    TrimmedIsFixed(q);
    assert q[1..|q| - 1] == EscapeRaw(path);
    UnescapeOfRaw(path);
    DecodeUndoesEncode(Halved(path), []);
    assert Encode(Halved(path)) + [] == Encode(Halved(path)) && Halved(path) + Decode([]) == Halved(path);
    HalvedIsSameIff(path);
  }

  // ---------------------------------------------------------------- the a/ and b/ prefixes

  function StripAbPrefix(p: string): string {
    if StartsWith(p, "a/") || StartsWith(p, "b/") then p[2..] else p
  }

  /** The value of a `---` or `+++` line. */
  function AbPath(token: string): Option<string> {
    var t := Trim(token);
    if t == "/dev/null" then None else Some(StripAbPrefix(Unquoted(t)))
  }

  // ---------------------------------------------------------------- escapes that git does not print

  lemma OctalUnit(s: string, digits: string)
    requires |s| > 1 && s[0] == '\\' && IsOctal(s[1]) && OctalRun(s[1..], 3) == |digits| && s[1..][..|digits|] == digits
    ensures FirstUnit(s) == ([OctalValue(digits) % 256], 1 + |digits|)
  {
    hide OctalRun;
    hide OctalValue;
    assert Letter(s[1]).None?;
  }

  /** Up to three octal digits make one byte, as many as there are. */
  lemma OctalEscapeIs(digits: string, rest: string)
    requires 1 <= |digits| <= 3 && forall c <- digits :: IsOctal(c)
    requires |digits| < 3 ==> rest == "" || !IsOctal(rest[0])
    ensures Unescape("\\" + digits + rest) == [OctalValue(digits) % 256] + Unescape(rest)
  {
    var s := "\\" + digits + rest;
    OctalRunIs(digits, rest, 3);
    hide OctalRun;
    hide OctalValue;
    assert digits[0] in digits;
    assert s[1..] == digits + rest && s[1..][..|digits|] == digits && s[1] == digits[0];
    OctalUnit(s, digits);
    hide FirstUnit;
    assert s[1 + |digits|..] == rest;
  }

  lemma {:induction false} OctalRunIs(digits: string, rest: string, most: nat)
    requires |digits| <= most && forall c <- digits :: IsOctal(c)
    requires |digits| < most ==> rest == "" || !IsOctal(rest[0])
    ensures OctalRun(digits + rest, most) == |digits|
    decreases most
  {
    if digits == "" {
      assert digits + rest == rest;
    } else {
      assert (digits + rest)[1..] == digits[1..] + rest;
      OctalRunIs(digits[1..], rest, most - 1);
    }
  }

  /** An escape nobody knows keeps its character, and a backslash at the end stands for itself. */
  lemma UnknownEscapeIs(c: char, rest: string)
    requires c < '\U{0080}' && Letter(c).None? && !IsOctal(c)
    ensures Unescape("\\" + [c] + rest) == [c as int] + Unescape(rest)
    ensures Unescape("\\") == [0x5C]
  {
    var s := "\\" + [c] + rest;
    assert s[2..] == rest && s[1] == c;
    assert "\\"[1..] == "" && Unescape("") == [];
  }
}
