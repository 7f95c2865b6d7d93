/** UTF-8 as the host decodes a byte buffer: each maximal ill-formed run becomes U+FFFD. */
module Utf8 {

  type Byte = b: int | 0 <= b < 256

  const REPLACEMENT: char := '\U{FFFD}'

  function EncodeChar(c: char): (bytes: seq<Byte>)
    ensures 1 <= |bytes| <= 4
    ensures c < '\U{0080}' <==> bytes[0] < 0x80
    ensures c >= '\U{0080}' ==> forall b <- bytes :: b >= 0x80
  {
    var u := c as int;
    if u < 0x80 then [u]
    else if u < 0x800 then [0xC0 + u / 64, 0x80 + u % 64]
    else if u < 0x1_0000 then [0xE0 + u / 4096, 0x80 + u / 64 % 64, 0x80 + u % 64]
    else [0xF0 + u / 262144, 0x80 + u / 4096 % 64, 0x80 + u / 64 % 64, 0x80 + u % 64]
  }

  function Encode(s: string): seq<Byte> {
    if s == "" then [] else EncodeChar(s[0]) + Encode(s[1..])
  }

  /** Does byte i exist and lie in the range? */
  predicate Within(bytes: seq<Byte>, i: nat, lo: int, hi: int) {
    i < |bytes| && lo <= bytes[i] <= hi
  }

  /** The payload of a continuation byte. */
  function Six(bytes: seq<Byte>, i: nat): int
    requires i < |bytes|
  {
    bytes[i] as int - 0x80
  }

  /** The first character of a byte string and the number of bytes it takes. */
  function DecodeOne(bytes: seq<Byte>): (r: (char, nat))
    requires bytes != []
    ensures 1 <= r.1 <= |bytes|
  {
    var b: int := bytes[0];
    if b < 0x80 then (b as char, 1)
    else if 0xC2 <= b <= 0xDF then
      if Within(bytes, 1, 0x80, 0xBF) then (((b - 0xC0) * 64 + Six(bytes, 1)) as char, 2)
      else (REPLACEMENT, 1)
    else if 0xE0 <= b <= 0xEF then
      var lo := if b == 0xE0 then 0xA0 else 0x80;
      var hi := if b == 0xED then 0x9F else 0xBF;
      if !Within(bytes, 1, lo, hi) then (REPLACEMENT, 1)
      else if !Within(bytes, 2, 0x80, 0xBF) then (REPLACEMENT, 2)
      else (((b - 0xE0) * 4096 + Six(bytes, 1) * 64 + Six(bytes, 2)) as char, 3)
    else if 0xF0 <= b <= 0xF4 then
      var lo := if b == 0xF0 then 0x90 else 0x80;
      var hi := if b == 0xF4 then 0x8F else 0xBF;
      if !Within(bytes, 1, lo, hi) then (REPLACEMENT, 1)
      else if !Within(bytes, 2, 0x80, 0xBF) then (REPLACEMENT, 2)
      else if !Within(bytes, 3, 0x80, 0xBF) then (REPLACEMENT, 3)
      else
        (((b - 0xF0) * 262144 + Six(bytes, 1) * 4096 + Six(bytes, 2) * 64 + Six(bytes, 3)) as char, 4)
    else (REPLACEMENT, 1)
  }

  function Decode(bytes: seq<Byte>): string {
    if bytes == [] then ""
    else
      var (c, n) := DecodeOne(bytes);
      [c] + Decode(bytes[n..])
  }

  lemma Split(u: nat)
    ensures u == u / 64 * 64 + u % 64
    ensures u / 64 == u / 4096 * 64 + u / 64 % 64
    ensures u / 4096 == u / 262144 * 64 + u / 4096 % 64
  {
  }

  lemma DecodeOneUndoesEncodeChar(c: char, rest: seq<Byte>)
    ensures DecodeOne(EncodeChar(c) + rest) == (c, |EncodeChar(c)|)
  {
    var u := c as int;
    var e := EncodeChar(c);
    var bytes := e + rest;
    assert bytes[0] == e[0];
    if 0x80 <= u < 0x800 {
      assert bytes[1] == e[1];
    } else if 0x800 <= u < 0x1_0000 {
      assert bytes[1] == e[1] && bytes[2] == e[2];
      Split(u);
    } else if u >= 0x1_0000 {
      assert bytes[1] == e[1] && bytes[2] == e[2] && bytes[3] == e[3];
      Split(u);
    }
  }

  lemma DecodeCons(c: char, rest: seq<Byte>)
    ensures Decode(EncodeChar(c) + rest) == [c] + Decode(rest)
  {
    hide EncodeChar;
    hide DecodeOne;
    DecodeOneUndoesEncodeChar(c, rest);
    assert (EncodeChar(c) + rest)[|EncodeChar(c)|..] == rest;
  }

  lemma {:induction false} DecodeUndoesEncode(s: string, rest: seq<Byte>)
    ensures Decode(Encode(s) + rest) == s + Decode(rest)
  {
    hide EncodeChar;
    hide Decode;
    if s == "" {
      assert Encode(s) + rest == rest;
      assert Decode(rest) == s + Decode(rest);
    } else {
      var tail := Encode(s[1..]) + rest;
      assert Encode(s) + rest == EncodeChar(s[0]) + tail;
      DecodeCons(s[0], tail);
      DecodeUndoesEncode(s[1..], rest);
      assert [s[0]] + (s[1..] + Decode(rest)) == s + Decode(rest);
    }
  }

  // ---------------------------------------------------------------- ill-formed bytes

  /** These bytes are how the encoding of some character begins. */
  ghost predicate IsStart(bytes: seq<Byte>) {
    exists c: char :: bytes <= EncodeChar(c)
  }

  /** The length of the encoding, by its first byte. */
  function LengthBy(b: int): nat {
    if b < 0x80 then 1
    else if 0xC2 <= b <= 0xDF then 2
    else if 0xE0 <= b <= 0xEF then 3
    else if 0xF0 <= b <= 0xF4 then 4
    else 0
  }

  /** The range of the second byte: no overlong forms, no surrogates, nothing past the last plane. */
  predicate SecondFits(b: int, second: int) {
    && (if b == 0xE0 then 0xA0 else if b == 0xF0 then 0x90 else 0x80) <= second
    && second <= (if b == 0xED then 0x9F else if b == 0xF4 then 0x8F else 0xBF)
  }

  predicate Continues(b: int) {
    0x80 <= b <= 0xBF
  }

  lemma EncodingFits(c: char)
    ensures var e := EncodeChar(c);
      && |e| == LengthBy(e[0])
      && (|e| > 1 ==> SecondFits(e[0], e[1]))
      && (|e| > 2 ==> Continues(e[2]))
      && (|e| > 3 ==> Continues(e[3]))
  {
    var u := c as int;
    assert u < 0xD800 || 0xE000 <= u;
    Split(u);
  }

  lemma StartFits(bytes: seq<Byte>)
    requires bytes != [] && IsStart(bytes)
    ensures |bytes| <= LengthBy(bytes[0])
    ensures |bytes| > 1 ==> SecondFits(bytes[0], bytes[1])
    ensures |bytes| > 2 ==> Continues(bytes[2])
    ensures |bytes| > 3 ==> Continues(bytes[3])
  {
    var c: char :| bytes <= EncodeChar(c);
    EncodingFits(c);
    hide EncodeChar;
  }

  lemma TwoBytes(b: Byte, x: Byte) returns (c: char)
    requires LengthBy(b) == 2 && Continues(x)
    ensures EncodeChar(c) == [b, x]
  {
    c := ((b - 0xC0) * 64 + (x - 0x80)) as char;
  }

  lemma ThreeBytes(b: Byte, x: Byte, y: Byte) returns (c: char)
    requires LengthBy(b) == 3 && SecondFits(b, x) && Continues(y)
    ensures EncodeChar(c) == [b, x, y]
  {
    var u := (b - 0xE0) * 4096 + (x - 0x80) * 64 + (y - 0x80);
    assert u / 4096 == b - 0xE0 && u / 64 % 64 == x - 0x80 && u % 64 == y - 0x80;
    c := u as char;
  }

  lemma Digits(a: nat, b: nat, c: nat, d: nat) returns (u: nat)
    requires b < 64 && c < 64 && d < 64
    ensures u == a * 262144 + b * 4096 + c * 64 + d
    ensures u / 262144 == a && u / 4096 % 64 == b && u / 64 % 64 == c && u % 64 == d
  {
    var top := a * 64 + b;
    var mid := top * 64 + c;
    u := mid * 64 + d;
    assert u / 64 == mid && u % 64 == d;
    assert mid / 64 == top && mid % 64 == c;
    assert top / 64 == a && top % 64 == b;
    assert u / 4096 == mid / 64 && u / 262144 == top / 64;
  }

  lemma FourBytes(b: Byte, x: Byte, y: Byte, z: Byte) returns (c: char)
    requires LengthBy(b) == 4 && SecondFits(b, x) && Continues(y) && Continues(z)
    ensures EncodeChar(c) == [b, x, y, z]
    ensures c as int == (b - 0xF0) * 262144 + (x - 0x80) * 4096 + (y - 0x80) * 64 + (z - 0x80)
  {
    var u := Digits(b - 0xF0, x - 0x80, y - 0x80, z - 0x80);
    assert 0x1_0000 <= u < 0x11_0000;
    c := u as char;
  }

  lemma StartOfTwo(b: Byte, x: Byte)
    requires LengthBy(b) >= 3 && SecondFits(b, x)
    ensures IsStart([b, x])
  {
    var c;
    if LengthBy(b) == 3 { c := ThreeBytes(b, x, 0x80); } else { c := FourBytes(b, x, 0x80, 0x80); }
    assert [b, x] <= EncodeChar(c);
  }

  lemma StartOfThree(b: Byte, x: Byte, y: Byte)
    requires LengthBy(b) == 4 && SecondFits(b, x) && Continues(y)
    ensures IsStart([b, x, y])
  {
    var c := FourBytes(b, x, y, 0x80);
    assert [b, x, y] <= EncodeChar(c);
  }

  /** Where a character's encoding stands, that character is decoded. */
  lemma WellFormedIsDecoded(bytes: seq<Byte>, c: char)
    requires EncodeChar(c) <= bytes
    ensures bytes != [] && DecodeOne(bytes) == (c, |EncodeChar(c)|)
  {
    assert bytes == EncodeChar(c) + bytes[|EncodeChar(c)|..];
    DecodeOneUndoesEncodeChar(c, bytes[|EncodeChar(c)|..]);
  }

  /** Bytes in whose front a whole encoding stands. */
  predicate Whole(bytes: seq<Byte>) {
    && bytes != [] && LengthBy(bytes[0]) > 0 && |bytes| >= LengthBy(bytes[0])
    && (LengthBy(bytes[0]) > 1 ==> SecondFits(bytes[0], bytes[1]))
    && (LengthBy(bytes[0]) > 2 ==> Continues(bytes[2]))
    && (LengthBy(bytes[0]) > 3 ==> Continues(bytes[3]))
  }

  lemma WholeStands(bytes: seq<Byte>) returns (c: char)
    requires Whole(bytes)
    ensures EncodeChar(c) <= bytes
  {
    var b := bytes[0];
    match LengthBy(b)
    case 1 => c := b as char;
    case 2 => c := TwoBytes(b, bytes[1]);
    case 3 => c := ThreeBytes(b, bytes[1], bytes[2]);
    case _ => c := FourBytes(b, bytes[1], bytes[2], bytes[3]);
  }

  /** What is replaced, and how much of it, where no whole encoding stands. */
  lemma ReplacedUpTo(bytes: seq<Byte>)
    requires bytes != [] && !Whole(bytes)
    ensures var (c, n) := DecodeOne(bytes);
      && c == REPLACEMENT && n < 4
      && (n > 1 ==> LengthBy(bytes[0]) > n && SecondFits(bytes[0], bytes[1]))
      && (n > 2 ==> Continues(bytes[2]))
      && (n < |bytes| ==>
           || LengthBy(bytes[0]) <= n
           || (n == 1 && !SecondFits(bytes[0], bytes[1]))
           || (n > 1 && !Continues(bytes[n])))
  {
  }

  /** Where none stands, one U+FFFD replaces the longest run of bytes that some encoding begins
      with, or one byte if there is no such run. */
  lemma IllFormedIsReplaced(bytes: seq<Byte>)
    requires bytes != [] && forall c: char :: !(EncodeChar(c) <= bytes)
    ensures var (c, n) := DecodeOne(bytes);
      && c == REPLACEMENT && 1 <= n <= |bytes|
      && (n > 1 ==> IsStart(bytes[..n]))
      && (n < |bytes| ==> !IsStart(bytes[..n + 1]))
  {
    if Whole(bytes) {
      var _ := WholeStands(bytes);
    } else {
      ReplacedUpTo(bytes);
      var n := DecodeOne(bytes).1;
      hide DecodeOne;
      hide Whole;
      if n == 2 {
        StartOfTwo(bytes[0], bytes[1]);
        assert bytes[..2] == [bytes[0], bytes[1]];
      } else if n == 3 {
        StartOfThree(bytes[0], bytes[1], bytes[2]);
        assert bytes[..3] == [bytes[0], bytes[1], bytes[2]];
      }
      if n < |bytes| && IsStart(bytes[..n + 1]) {
        StartFits(bytes[..n + 1]);
      }
    }
  }
}
