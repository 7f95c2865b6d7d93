/** Word-level highlighting of one removed line against one added line: the tokenizer, the
    longest-common-subsequence table and the walk back through it. */
module TokenDiff {

  /** Browser strings are sequences of UTF-16 code units, and the tokenizer's pattern has no
      `u` flag, so a surrogate pair is two units here as it is there. */
  newtype CodeUnit = x: int | 0 <= x < 0x1_0000
  type Text = seq<CodeUnit>

  /** One cell of a `Uint32Array`. */
  newtype Uint32 = x: int | 0 <= x < 0x1_0000_0000

  datatype Kind = Same | Del | Add

  datatype Seg = Seg(text: Text, kind: Kind)

  const TOKEN_DIFF_CAP := 500

  // ----- the tokenizer -----

  /** The class `\w`: ASCII letters, digits and the underscore. */
  predicate IsWordUnit(c: CodeUnit) {
    0x30 <= c <= 0x39 || 0x41 <= c <= 0x5A || c == 0x5F || 0x61 <= c <= 0x7A
  }

  predicate AllWord(s: Text) {
    forall k | 0 <= k < |s| :: IsWordUnit(s[k])
  }

  /** Length of the longest prefix made of word units. */
  function WordRun(s: Text): (n: nat)
    ensures n <= |s| && AllWord(s[..n])
    ensures n < |s| ==> !IsWordUnit(s[n])
  {
    if s == [] || !IsWordUnit(s[0]) then 0
    else
      var n := 1 + WordRun(s[1..]);
      assert s[..n] == [s[0]] + s[1..][..n - 1];
      n
  }

  /** All matches of `\w+|[^\w]`, left to right. */
  function Tokenize(s: Text): (tokens: seq<Text>)
    ensures |tokens| <= |s|
  {
    if s == [] then []
    else
      var n := if WordRun(s) > 0 then WordRun(s) else 1;
      [s[..n]] + Tokenize(s[n..])
  }

  function Concat(parts: seq<Text>): Text {
    if parts == [] then [] else parts[0] + Concat(parts[1..])
  }

  /** What a reader expects of a tokenization: every token is a word or one non-word unit,
      and no word is split in two. */
  ghost predicate WellTokenized(tokens: seq<Text>) {
    && (forall k | 0 <= k < |tokens| ::
         tokens[k] != [] && (AllWord(tokens[k]) || (|tokens[k]| == 1 && !IsWordUnit(tokens[k][0]))))
    && (forall k | 0 <= k < |tokens| - 1 :: !(AllWord(tokens[k]) && AllWord(tokens[k + 1])))
  }

  lemma {:induction false} TokenizeIsLossless(s: Text)
    ensures Concat(Tokenize(s)) == s
  {
    if s != [] {
      var n := if WordRun(s) > 0 then WordRun(s) else 1;
      TokenizeIsLossless(s[n..]);
      assert s[..n] + s[n..] == s;
    }
  }

  lemma {:induction false} TokenizeIsWellTokenized(s: Text)
    ensures WellTokenized(Tokenize(s))
  {
    if s != [] {
      var n := if WordRun(s) > 0 then WordRun(s) else 1;
      TokenizeIsWellTokenized(s[n..]);
      var rest := Tokenize(s[n..]);
      assert WordRun(s) == 0 ==> s[..n][0] == s[0];
      assert rest != [] ==> rest[0] != [] && rest[0][0] == s[n];
      assert rest != [] && WordRun(s) > 0 ==> !AllWord(rest[0]);
    }
  }

  /** The tokenizer's result is the only split with these two properties. */
  lemma {:induction false} TokenizationIsUnique(tokens: seq<Text>)
    requires WellTokenized(tokens)
    ensures Tokenize(Concat(tokens)) == tokens
  {
    if tokens != [] {
      TokenizationIsUnique(tokens[1..]);
      FirstTokenIsCut(tokens);
      hide Tokenize;
    }
  }

  lemma FirstTokenIsCut(tokens: seq<Text>)
    requires WellTokenized(tokens) && tokens != []
    ensures Tokenize(Concat(tokens)) == [tokens[0]] + Tokenize(Concat(tokens[1..]))
  {
    var s, first, rest := Concat(tokens), tokens[0], tokens[1..];
    assert s[..|first|] == first && s[|first|..] == Concat(rest);
    if AllWord(first) {
      if rest != [] {
        assert s[|first|] == tokens[1][0];
      }
      WordRunIs(s, |first|);
    } else {
      assert !IsWordUnit(s[0]);
    }
  }

  lemma {:induction false} WordRunIs(s: Text, n: nat)
    requires n <= |s| && AllWord(s[..n]) && (n < |s| ==> !IsWordUnit(s[n]))
    ensures WordRun(s) == n
  {
    if n > 0 {
      assert IsWordUnit(s[..n][0]);
      assert s[1..][..n - 1] == s[..n][1..];
      WordRunIs(s[1..], n - 1);
    }
  }

  // ----- subsequences -----

  /** `c` can be read off `a` by deleting tokens. */
  ghost predicate IsSubsequence<T>(c: seq<T>, a: seq<T>) {
    c == [] || (a != [] && ((c[0] == a[0] && IsSubsequence(c[1..], a[1..])) || IsSubsequence(c, a[1..])))
  }

  ghost predicate IsCommonSubsequence<T>(c: seq<T>, a: seq<T>, b: seq<T>) {
    IsSubsequence(c, a) && IsSubsequence(c, b)
  }

  function Max(x: nat, y: nat): nat {
    if x >= y then x else y
  }

  /** The recurrence the table is filled with, on suffixes. */
  function Lcs<T(==)>(a: seq<T>, b: seq<T>): nat {
    if a == [] || b == [] then 0
    else if a[0] == b[0] then Lcs(a[1..], b[1..]) + 1
    else Max(Lcs(a[1..], b), Lcs(a, b[1..]))
  }

  lemma {:induction false} LcsBounded<T>(a: seq<T>, b: seq<T>)
    ensures Lcs(a, b) <= |a| && Lcs(a, b) <= |b|
    decreases |a| + |b|
  {
    if a != [] && b != [] {
      if a[0] == b[0] {
        LcsBounded(a[1..], b[1..]);
      } else {
        LcsBounded(a[1..], b);
        LcsBounded(a, b[1..]);
      }
    }
  }

  lemma {:induction false} DropHead<T>(c: seq<T>, a: seq<T>)
    requires c != [] && IsSubsequence(c, a)
    ensures a != [] && IsSubsequence(c[1..], a[1..])
    decreases |a|
  {
    if c[0] == a[0] && IsSubsequence(c[1..], a[1..]) {
    } else {
      DropHead(c, a[1..]);
      Weaken(c[1..], a[1..]);
    }
  }

  lemma {:induction false} Weaken<T>(c: seq<T>, a: seq<T>)
    requires a != [] && IsSubsequence(c, a[1..])
    ensures IsSubsequence(c, a)
  {
  }

  /** No common subsequence is longer than the recurrence says. */
  lemma {:induction false} LcsIsMaximum<T>(c: seq<T>, a: seq<T>, b: seq<T>)
    requires IsCommonSubsequence(c, a, b)
    ensures |c| <= Lcs(a, b)
    decreases |a| + |b|
  {
    if c != [] {
      if a[0] == b[0] {
        DropHead(c, a);
        DropHead(c, b);
        LcsIsMaximum(c[1..], a[1..], b[1..]);
      } else if IsSubsequence(c, a[1..]) {
        LcsIsMaximum(c, a[1..], b);
      } else {
        assert IsSubsequence(c, b[1..]);
        LcsIsMaximum(c, a, b[1..]);
      }
    }
  }

  // ----- edit scripts -----

  /** One step of the walk: keep, remove or insert a token. */
  datatype Op = Op(token: Text, kind: Kind)

  /** The tokens of the operations whose kind is not hidden. */
  function Side(ops: seq<Op>, hidden: set<Kind>): seq<Text> {
    if ops == [] then []
    else if ops[0].kind in hidden then Side(ops[1..], hidden)
    else [ops[0].token] + Side(ops[1..], hidden)
  }

  function OldSide(ops: seq<Op>): seq<Text> { Side(ops, {Add}) }

  function NewSide(ops: seq<Op>): seq<Text> { Side(ops, {Del}) }

  function Kept(ops: seq<Op>): seq<Text> { Side(ops, {Add, Del}) }

  /** The kept tokens of any script form a common subsequence of its two sides. */
  lemma KeptIsCommon(ops: seq<Op>)
    ensures IsCommonSubsequence(Kept(ops), OldSide(ops), NewSide(ops))
  {
    KeptIsSubsequence(ops, {Add});
    KeptIsSubsequence(ops, {Del});
  }

  lemma {:induction false} KeptIsSubsequence(ops: seq<Op>, hidden: set<Kind>)
    requires hidden <= {Add, Del}
    ensures IsSubsequence(Kept(ops), Side(ops, hidden))
  {
    if ops != [] {
      KeptIsSubsequence(ops[1..], hidden);
      var c, a := Kept(ops), Side(ops, hidden);
      assert ops[0].kind !in hidden ==> a[1..] == Side(ops[1..], hidden);
      if ops[0].kind == Same {
        assert c[1..] == Kept(ops[1..]);
      } else if ops[0].kind !in hidden {
        Weaken(c, a);
      }
    }
  }

  /** The walk through the table: keep on equality, otherwise go where the table is larger,
      removing before inserting on a tie. */
  function Script(a: seq<Text>, b: seq<Text>): seq<Op>
    decreases |a| + |b|
  {
    if a == [] && b == [] then []
    else if b == [] then [Op(a[0], Del)] + Script(a[1..], b)
    else if a == [] then [Op(b[0], Add)] + Script(a, b[1..])
    else if a[0] == b[0] then [Op(a[0], Same)] + Script(a[1..], b[1..])
    else if Lcs(a[1..], b) >= Lcs(a, b[1..]) then [Op(a[0], Del)] + Script(a[1..], b)
    else [Op(b[0], Add)] + Script(a, b[1..])
  }

  lemma {:induction false} ScriptEdits(a: seq<Text>, b: seq<Text>)
    ensures OldSide(Script(a, b)) == a && NewSide(Script(a, b)) == b
    ensures |Kept(Script(a, b))| == Lcs(a, b)
    decreases |a| + |b|
  {
    if a == [] && b == [] {
    } else if b == [] {
      ScriptEdits(a[1..], b);
    } else if a == [] {
      ScriptEdits(a, b[1..]);
    } else if a[0] == b[0] {
      ScriptEdits(a[1..], b[1..]);
    } else if Lcs(a[1..], b) >= Lcs(a, b[1..]) {
      ScriptEdits(a[1..], b);
    } else {
      ScriptEdits(a, b[1..]);
    }
  }

  /** Optimality of the walk against every rival common subsequence. */
  lemma ScriptIsOptimal(a: seq<Text>, b: seq<Text>)
    ensures OldSide(Script(a, b)) == a && NewSide(Script(a, b)) == b
    ensures IsCommonSubsequence(Kept(Script(a, b)), a, b)
    ensures forall c: seq<Text> | IsCommonSubsequence(c, a, b) :: |c| <= |Kept(Script(a, b))|
  {
    ScriptEdits(a, b);
    KeptIsCommon(Script(a, b));
    forall c: seq<Text> | IsCommonSubsequence(c, a, b) ensures |c| <= |Kept(Script(a, b))| {
      LcsIsMaximum(c, a, b);
    }
  }

  // ----- segments -----

  /** Append a token, growing the last segment when its kind is the same. */
  function Push(segs: seq<Seg>, text: Text, kind: Kind): seq<Seg> {
    if segs != [] && segs[|segs| - 1].kind == kind
    then segs[..|segs| - 1] + [Seg(segs[|segs| - 1].text + text, kind)]
    else segs + [Seg(text, kind)]
  }

  /** The segments of the side on which operations of kind `other` do not show. */
  function Segments(ops: seq<Op>, other: Kind): seq<Seg> {
    if ops == [] then []
    else
      var before, last := Segments(ops[..|ops| - 1], other), ops[|ops| - 1];
      if last.kind == other then before else Push(before, last.token, last.kind)
  }

  function SegText(segs: seq<Seg>): Text {
    if segs == [] then [] else SegText(segs[..|segs| - 1]) + segs[|segs| - 1].text
  }

  /** The text of the segments of one kind. */
  function SegTextOf(segs: seq<Seg>, kind: Kind): Text {
    if segs == [] then []
    else SegTextOf(segs[..|segs| - 1], kind) + (if segs[|segs| - 1].kind == kind then segs[|segs| - 1].text else [])
  }

  ghost predicate NoTwoAlike(segs: seq<Seg>) {
    forall k | 0 <= k < |segs| - 1 :: segs[k].kind != segs[k + 1].kind
  }

  ghost predicate NoneOf(segs: seq<Seg>, kind: Kind) {
    forall k | 0 <= k < |segs| :: segs[k].kind != kind
  }

  lemma PushKeepsText(segs: seq<Seg>, text: Text, kind: Kind)
    ensures SegText(Push(segs, text, kind)) == SegText(segs) + text
    ensures SegTextOf(Push(segs, text, kind), Same) == SegTextOf(segs, Same) + (if kind == Same then text else [])
  {
    var out := Push(segs, text, kind);
    if segs != [] && segs[|segs| - 1].kind == kind {
      assert out[..|out| - 1] == segs[..|segs| - 1];
    } else {
      assert out[..|out| - 1] == segs;
    }
  }

  lemma {:induction false} ConcatAppend(xs: seq<Text>, ys: seq<Text>)
    ensures Concat(xs + ys) == Concat(xs) + Concat(ys)
  {
    if xs == [] {
      assert xs + ys == ys;
    } else {
      ConcatAppend(xs[1..], ys);
      assert (xs + ys)[0] == xs[0] && (xs + ys)[1..] == xs[1..] + ys;
      assert xs[0] + (Concat(xs[1..]) + Concat(ys)) == (xs[0] + Concat(xs[1..])) + Concat(ys);
    }
  }

  lemma {:induction false} SideAppend(xs: seq<Op>, ys: seq<Op>, hidden: set<Kind>)
    ensures Side(xs + ys, hidden) == Side(xs, hidden) + Side(ys, hidden)
  {
    if xs == [] {
      assert xs + ys == ys;
    } else {
      SideAppend(xs[1..], ys, hidden);
      assert (xs + ys)[0] == xs[0] && (xs + ys)[1..] == xs[1..] + ys;
      assert [xs[0].token] + (Side(xs[1..], hidden) + Side(ys, hidden)) ==
        [xs[0].token] + Side(xs[1..], hidden) + Side(ys, hidden);
    }
  }

  /** Text of the visible tokens grows by the last operation's token when that is visible. */
  lemma SideTextSnoc(front: seq<Op>, last: Op, hidden: set<Kind>)
    ensures Concat(Side(front + [last], hidden)) ==
            Concat(Side(front, hidden)) + (if last.kind in hidden then [] else last.token)
  {
    SideAppend(front, [last], hidden);
    ConcatAppend(Side(front, hidden), Side([last], hidden));
    assert [last][1..] == [] && [last.token][1..] == [];
    assert Concat([last.token]) == last.token + Concat([]);
  }

  lemma SegmentsTextSnoc(front: seq<Op>, last: Op, other: Kind)
    requires other != Same
    ensures SegText(Segments(front + [last], other)) ==
            SegText(Segments(front, other)) + (if last.kind == other then [] else last.token)
    ensures SegTextOf(Segments(front + [last], other), Same) ==
            SegTextOf(Segments(front, other), Same) + (if last.kind == Same then last.token else [])
  {
    assert (front + [last])[..|front|] == front;
    PushKeepsText(Segments(front, other), last.token, last.kind);
    hide SegText;
    hide SegTextOf;
    hide Push;
  }

  /** Merging loses no text, and the text shown as kept is that of the kept tokens. */
  lemma {:induction false} SegmentsKeepText(ops: seq<Op>, other: Kind)
    requires other != Same
    ensures SegText(Segments(ops, other)) == Concat(Side(ops, {other}))
    ensures SegTextOf(Segments(ops, other), Same) == Concat(Kept(ops))
  {
    if ops == [] {
      NothingIsKept(other);
    } else {
      var front, last := ops[..|ops| - 1], ops[|ops| - 1];
      assert Kept(front) == Side(front, {Add, Del}) && Kept(ops) == Side(ops, {Add, Del});
      hide *;
      SegmentsKeepText(front, other);
      assert ops == front + [last];
      SegmentsTextSnoc(front, last, other);
      SideTextSnoc(front, last, {other});
      SideTextSnoc(front, last, {Add, Del});
      assert last.kind == other <==> last.kind in {other};
      assert last.kind == Same <==> last.kind !in {Add, Del};
    }
  }

  lemma NothingIsKept(other: Kind)
    ensures SegText(Segments([], other)) == Concat(Side([], {other}))
    ensures SegTextOf(Segments([], other), Same) == Concat(Kept([]))
  {
  }

  /** No two neighbouring segments are alike, and only the two kinds of that side occur. */
  lemma {:induction false} SegmentsAlternate(ops: seq<Op>, other: Kind)
    requires other != Same
    ensures NoTwoAlike(Segments(ops, other))
    ensures NoneOf(Segments(ops, other), other)
  {
    if ops != [] {
      SegmentsAlternate(ops[..|ops| - 1], other);
    }
  }

  // ----- the whole comparison -----

  datatype Highlight = Highlight(oldSegs: seq<Seg>, newSegs: seq<Seg>)

  predicate OverCap(oldText: Text, newText: Text) {
    |Tokenize(oldText)| > TOKEN_DIFF_CAP || |Tokenize(newText)| > TOKEN_DIFF_CAP
  }

  /** Both sides of a script, merged into segments. */
  function Shown(ops: seq<Op>): Highlight {
    Highlight(Segments(ops, Add), Segments(ops, Del))
  }

  /** What the comparison computes, as a function of the two lines. */
  function Highlights(oldText: Text, newText: Text): Highlight {
    if OverCap(oldText, newText) then Highlight([Seg(oldText, Del)], [Seg(newText, Add)])
    else
      var ops := Script(Tokenize(oldText), Tokenize(newText));
      Shown(ops)
  }

  /** On every pair of lines the two sides are shown without loss, with alternating kinds and
      the same kept text; below the cap that kept text is a longest common subsequence. */
  lemma HighlightsAreLosslessAndOptimal(oldText: Text, newText: Text)
    ensures var h := Highlights(oldText, newText);
      && SegText(h.oldSegs) == oldText && SegText(h.newSegs) == newText
      && NoTwoAlike(h.oldSegs) && NoTwoAlike(h.newSegs)
      && NoneOf(h.oldSegs, Add) && NoneOf(h.newSegs, Del)
      && SegTextOf(h.oldSegs, Same) == SegTextOf(h.newSegs, Same)
    ensures !OverCap(oldText, newText) ==>
      var (h, a, b) := (Highlights(oldText, newText), Tokenize(oldText), Tokenize(newText));
      exists kept: seq<Text> ::
        && IsCommonSubsequence(kept, a, b)
        && SegTextOf(h.oldSegs, Same) == Concat(kept)
        && forall c: seq<Text> | IsCommonSubsequence(c, a, b) :: |c| <= |kept|
  {
    if OverCap(oldText, newText) {
      var o, n := [Seg(oldText, Del)], [Seg(newText, Add)];
      assert o[..0] == [] && n[..0] == [];
    } else {
      var a, b := Tokenize(oldText), Tokenize(newText);
      var ops := Script(a, b);
      ScriptIsOptimal(a, b);
      SegmentsKeepText(ops, Add);
      SegmentsKeepText(ops, Del);
      SegmentsAlternate(ops, Add);
      SegmentsAlternate(ops, Del);
      TokenizeIsLossless(oldText);
      TokenizeIsLossless(newText);
      assert IsCommonSubsequence(Kept(ops), a, b);
    }
  }

  ghost predicate RowDone(dp: array2<Uint32>, a: seq<Text>, b: seq<Text>, i: nat)
    requires dp.Length0 == |a| + 1 && dp.Length1 == |b| + 1 && i <= |a|
    reads dp
  {
    forall q | 0 <= q <= |b| :: dp[i, q] as int == Lcs(a[i..], b[q..])
  }

  lemma LcsAt(a: seq<Text>, b: seq<Text>, i: nat, j: nat)
    requires i < |a| && j < |b|
    ensures Lcs(a[i..], b[j..]) ==
      if a[i] == b[j] then Lcs(a[i + 1..], b[j + 1..]) + 1
      else if Lcs(a[i + 1..], b[j..]) >= Lcs(a[i..], b[j + 1..]) then Lcs(a[i + 1..], b[j..])
      else Lcs(a[i..], b[j + 1..])
    ensures Lcs(a[i + 1..], b[j + 1..]) < |a|
  {
    assert a[i..][1..] == a[i + 1..] && b[j..][1..] == b[j + 1..];
    LcsBounded(a[i + 1..], b[j + 1..]);
  }

  /** Row i holds its final values from column j on. */
  ghost predicate RowDoneFrom(dp: array2<Uint32>, a: seq<Text>, b: seq<Text>, i: nat, j: nat)
    requires dp.Length0 == |a| + 1 && dp.Length1 == |b| + 1 && i <= |a|
    reads dp
  {
    forall q | j <= q <= |b| :: dp[i, q] as int == Lcs(a[i..], b[q..])
  }

  /** The body of the inner loop: one cell from its three neighbours. */
  method FillCell(dp: array2<Uint32>, a: seq<Text>, b: seq<Text>, i: nat, j: nat)
    requires dp.Length0 == |a| + 1 && dp.Length1 == |b| + 1 && i < |a| <= TOKEN_DIFF_CAP && j < |b|
    requires RowDone(dp, a, b, i + 1) && RowDoneFrom(dp, a, b, i, j + 1)
    modifies dp
    ensures RowDoneFrom(dp, a, b, i, j)
    ensures forall p, q | 0 <= p <= |a| && p != i && 0 <= q <= |b| :: dp[p, q] == old(dp[p, q])
  {
    LcsAt(a, b, i, j);
    hide Lcs;
    assert dp[i + 1, j] as int == Lcs(a[i + 1..], b[j..]);
    assert dp[i + 1, j + 1] as int == Lcs(a[i + 1..], b[j + 1..]);
    assert dp[i, j + 1] as int == Lcs(a[i..], b[j + 1..]);
    dp[i, j] := if a[i] == b[j] then dp[i + 1, j + 1] + 1
                else if dp[i + 1, j] >= dp[i, j + 1] then dp[i + 1, j] else dp[i, j + 1];
  }

  /** The body of the outer loop: one row of the table from the row below it. */
  method FillRow(dp: array2<Uint32>, a: seq<Text>, b: seq<Text>, i: nat)
    requires dp.Length0 == |a| + 1 && dp.Length1 == |b| + 1 && i < |a| <= TOKEN_DIFF_CAP
    requires RowDone(dp, a, b, i + 1) && dp[i, |b|] == 0
    modifies dp
    ensures RowDone(dp, a, b, i)
    ensures forall p | 0 <= p <= |a| && p != i :: old(RowDone(dp, a, b, p)) ==> RowDone(dp, a, b, p)
    ensures forall p | 0 <= p <= |a| && p != i :: dp[p, |b|] == old(dp[p, |b|])
  {
    assert Lcs(a[i..], b[|b|..]) == 0;
    hide Lcs;
    var j := |b| - 1;
    while j >= 0
      invariant -1 <= j < |b|
      invariant RowDoneFrom(dp, a, b, i, j + 1)
      invariant forall p, q | 0 <= p <= |a| && p != i && 0 <= q <= |b| :: dp[p, q] == old(dp[p, q])
    {
      FillCell(dp, a, b, i, j);
      j := j - 1;
    }
  }

  /** The table of suffix lengths, filled from the bottom row up. The cap keeps every cell
      far below the width of a `Uint32`. */
  method FillTable(a: seq<Text>, b: seq<Text>) returns (dp: array2<Uint32>)
    requires |a| <= TOKEN_DIFF_CAP && |b| <= TOKEN_DIFF_CAP
    ensures fresh(dp) && dp.Length0 == |a| + 1 && dp.Length1 == |b| + 1
    ensures forall i | 0 <= i <= |a| :: RowDone(dp, a, b, i)
  {
    dp := new Uint32[|a| + 1, |b| + 1]((_, _) => 0);
    var i := |a| - 1;
    while i >= 0
      invariant -1 <= i < |a|
      invariant forall p | i < p <= |a| :: RowDone(dp, a, b, p)
      invariant forall p | 0 <= p <= i :: dp[p, |b|] == 0
    {
      FillRow(dp, a, b, i);
      i := i - 1;
    }
  }

  /** Where the walk stands: `done` has been emitted and the rest of the script is still to come. */
  ghost predicate Walking(a: seq<Text>, b: seq<Text>, i: nat, j: nat, done: seq<Op>, h: Highlight)
    requires i <= |a| && j <= |b|
  {
    && Script(a, b) == done + Script(a[i..], b[j..])
    && h == Shown(done)
  }

  function Emit(h: Highlight, op: Op): Highlight {
    Highlight(if op.kind == Add then h.oldSegs else Push(h.oldSegs, op.token, op.kind),
              if op.kind == Del then h.newSegs else Push(h.newSegs, op.token, op.kind))
  }

  lemma EmitFollows(done: seq<Op>, op: Op)
    ensures Emit(Shown(done), op) == Shown(done + [op])
  {
    assert (done + [op])[..|done|] == done;
  }

  /** How far an operation moves in the two token lists. */
  function Moves(kind: Kind): (nat, nat) {
    match kind
    case Same => (1, 1)
    case Del => (1, 0)
    case Add => (0, 1)
  }

  lemma Advance(a: seq<Text>, b: seq<Text>, i: nat, j: nat, done: seq<Op>, h: Highlight, op: Op)
    requires i <= |a| && j <= |b| && Walking(a, b, i, j, done, h)
    requires i < |a| || j < |b|
    requires op == NextOp(a, b, i, j)
    ensures var (di, dj) := Moves(op.kind);
      i + di <= |a| && j + dj <= |b| && Walking(a, b, i + di, j + dj, done + [op], Emit(h, op))
  {
    var (di, dj) := Moves(op.kind);
    EmitFollows(done, op);
    ScriptUnfolds(a, b, i, j);
    hide Script;
    hide Shown;
    hide Emit;
    assert done + ([op] + Script(a[i + di..], b[j + dj..])) == done + [op] + Script(a[i + di..], b[j + dj..]);
  }

  ghost function NextOp(a: seq<Text>, b: seq<Text>, i: nat, j: nat): Op
    requires i <= |a| && j <= |b| && (i < |a| || j < |b|)
  {
    if j == |b| then Op(a[i], Del)
    else if i == |a| then Op(b[j], Add)
    else if a[i] == b[j] then Op(a[i], Same)
    else if Lcs(a[i + 1..], b[j..]) >= Lcs(a[i..], b[j + 1..]) then Op(a[i], Del)
    else Op(b[j], Add)
  }

  lemma ScriptUnfolds(a: seq<Text>, b: seq<Text>, i: nat, j: nat)
    requires i <= |a| && j <= |b| && (i < |a| || j < |b|)
    ensures var op := NextOp(a, b, i, j);
      var (di, dj) := Moves(op.kind);
      i + di <= |a| && j + dj <= |b| && Script(a[i..], b[j..]) == [op] + Script(a[i + di..], b[j + dj..])
  {
    assert i < |a| ==> a[i..][1..] == a[i + 1..];
    assert j < |b| ==> b[j..][1..] == b[j + 1..];
  }

  /** The two-sided comparison of a removed and an added line. */
  method Compare(oldText: Text, newText: Text) returns (h: Highlight)
    ensures h == Highlights(oldText, newText)
  {
    var a, b := Tokenize(oldText), Tokenize(newText);
    if |a| > TOKEN_DIFF_CAP || |b| > TOKEN_DIFF_CAP {
      return Highlight([Seg(oldText, Del)], [Seg(newText, Add)]);
    }
    h := Walk(a, b);
  }

  /** The walk from the top left corner of the table. */
  method Walk(a: seq<Text>, b: seq<Text>) returns (h: Highlight)
    requires |a| <= TOKEN_DIFF_CAP && |b| <= TOKEN_DIFF_CAP
    ensures h == Shown(Script(a, b))
  {
    hide Script;
    hide Shown;
    hide Lcs;
    hide Walking;
    hide Emit;
    WalkBegins(a, b);
    var dp := FillTable(a, b);
    var i, j := 0, 0;
    ghost var done: seq<Op> := [];
    h := Highlight([], []);
    while i < |a| && j < |b|
      invariant 0 <= i <= |a| && 0 <= j <= |b|
      invariant Walking(a, b, i, j, done, h)
      invariant forall p | 0 <= p <= |a| :: RowDone(dp, a, b, p)
      decreases |a| - i + |b| - j
    {
      hide RowDone;
      var op := Choose(dp, a, b, i, j);
      Advance(a, b, i, j, done, h, op);
      h, done := Emit(h, op), done + [op];
      i, j := i + Moves(op.kind).0, j + Moves(op.kind).1;
    }
    h := Drain(a, b, i, j, done, h);
  }

  lemma WalkBegins(a: seq<Text>, b: seq<Text>)
    ensures Walking(a, b, 0, 0, [], Highlight([], []))
  {
    assert a[0..] == a && b[0..] == b;
  }

  method Choose(dp: array2<Uint32>, a: seq<Text>, b: seq<Text>, i: nat, j: nat) returns (op: Op)
    requires i < |a| && j < |b| && dp.Length0 == |a| + 1 && dp.Length1 == |b| + 1
    requires RowDone(dp, a, b, i) && RowDone(dp, a, b, i + 1)
    ensures op == NextOp(a, b, i, j)
  {
    op := if a[i] == b[j] then Op(a[i], Same)
          else if dp[i + 1, j] >= dp[i, j + 1] then Op(a[i], Del)
          else Op(b[j], Add);
  }

  /** The two loops that empty whichever list is left over. */
  method Drain(a: seq<Text>, b: seq<Text>, i0: nat, j0: nat, ghost done0: seq<Op>, h0: Highlight) returns (h: Highlight)
    requires i0 <= |a| && j0 <= |b| && (i0 == |a| || j0 == |b|)
    requires Walking(a, b, i0, j0, done0, h0)
    ensures h == Shown(Script(a, b))
  {
    var i, j := i0, j0;
    ghost var done := done0;
    h := h0;
    while i < |a|
      invariant i <= |a| && j <= |b| && (i == |a| || j == |b|)
      invariant Walking(a, b, i, j, done, h)
    {
      Advance(a, b, i, j, done, h, Op(a[i], Del));
      h, done, i := Emit(h, Op(a[i], Del)), done + [Op(a[i], Del)], i + 1;
    }
    while j < |b|
      invariant i == |a| && j <= |b|
      invariant Walking(a, b, i, j, done, h)
    {
      Advance(a, b, i, j, done, h, Op(b[j], Add));
      h, done, j := Emit(h, Op(b[j], Add)), done + [Op(b[j], Add)], j + 1;
    }
    assert done + [] == done;
  }
}
