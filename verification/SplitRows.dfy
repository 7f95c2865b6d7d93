/** The review page's two views of one hunk: word highlights on paired lines, and the
    side-by-side rows. */
module SplitRows {
  import opened TokenDiff

  datatype LineType = Context | Removed | Added

  /** A parsed diff line; highlighting writes its segments in place. */
  class Line {
    const typ: LineType
    const text: Text
    var segments: seq<Seg>

    constructor (typ: LineType, text: Text)
      ensures this.typ == typ && this.text == text && segments == []
    {
      this.typ, this.text, segments := typ, text, [];
    }
  }

  /** One side-by-side row; a null cell is blank. */
  datatype Row = Row(left: Line?, right: Line?)

  // ----- runs -----

  ghost predicate AllOf(lines: seq<Line>, lo: nat, hi: nat, typ: LineType) {
    hi <= |lines| && forall k | lo <= k < hi :: lines[k].typ == typ
  }

  /** First index at or after `from` whose line is not of this type. */
  function RunEnd(lines: seq<Line>, from: nat, typ: LineType): (end: nat)
    requires from <= |lines|
    ensures from <= end <= |lines| && AllOf(lines, from, end, typ)
    ensures end < |lines| ==> lines[end].typ != typ
    decreases |lines| - from
  {
    if from < |lines| && lines[from].typ == typ then RunEnd(lines, from + 1, typ) else from
  }

  /** The loop both views use to find the end of a run. */
  method ScanRun(lines: seq<Line>, from: nat, typ: LineType) returns (end: nat)
    requires from <= |lines|
    ensures end == RunEnd(lines, from, typ)
  {
    end := from;
    while end < |lines| && lines[end].typ == typ
      invariant from <= end <= |lines|
      invariant RunEnd(lines, from, typ) == RunEnd(lines, end, typ)
    {
      end := end + 1;
    }
  }

  /** First index of the run of this type that contains `at`. */
  ghost function RunStart(lines: seq<Line>, at: nat, typ: LineType): (start: nat)
    requires at < |lines| && lines[at].typ == typ
    ensures start <= at && AllOf(lines, start, at + 1, typ)
    ensures start > 0 ==> lines[start - 1].typ != typ
  {
    if at > 0 && lines[at - 1].typ == typ then RunStart(lines, at - 1, typ) else at
  }

  lemma {:induction false} RunStartIs(lines: seq<Line>, at: nat, typ: LineType, start: nat)
    requires start <= at < |lines| && AllOf(lines, start, at + 1, typ)
    requires start > 0 ==> lines[start - 1].typ != typ
    ensures RunStart(lines, at, typ) == start
  {
    if start < at {
      RunStartIs(lines, at - 1, typ, start);
    }
  }

  lemma {:induction false} RunEndIs(lines: seq<Line>, from: nat, typ: LineType, end: nat)
    requires from <= end <= |lines| && AllOf(lines, from, end, typ)
    requires end < |lines| ==> lines[end].typ != typ
    ensures RunEnd(lines, from, typ) == end
    decreases end - from
  {
    if from < end {
      RunEndIs(lines, from + 1, typ, end);
    }
  }

  // ----- which lines are compared word by word -----

  /** Removals on [s, m), additions on [m, e), both runs maximal. */
  ghost predicate IsBlock(lines: seq<Line>, s: nat, m: nat, e: nat) {
    && s < m <= e <= |lines|
    && AllOf(lines, s, m, Removed) && AllOf(lines, m, e, Added)
    && (s > 0 ==> lines[s - 1].typ != Removed)
    && (m < |lines| ==> lines[m].typ != Removed)
    && (e < |lines| ==> lines[e].typ != Added)
  }

  datatype Mate = NoMate | Mate(index: nat)

  /** The partner of a line, read off the runs around it: the k-th line of a run of removals
      goes with the k-th of the run of additions right after it, when the runs are equally
      long. */
  ghost function MateOf(lines: seq<Line>, at: nat): (mate: Mate)
    requires at < |lines|
    ensures mate.Mate? ==> mate.index < |lines|
  {
    match lines[at].typ
    case Context => NoMate
    case Removed =>
      var s, m := RunStart(lines, at, Removed), RunEnd(lines, at, Removed);
      var e := RunEnd(lines, m, Added);
      if e - m == m - s then Mate(m + (at - s)) else NoMate
    case Added =>
      var m, e := RunStart(lines, at, Added), RunEnd(lines, at, Added);
      if m == 0 || lines[m - 1].typ != Removed then NoMate
      else
        var s := RunStart(lines, m - 1, Removed);
        if e - m == m - s then Mate(s + (at - m)) else NoMate
  }

  /** Inside a block the partners are the lines at equal offsets. */
  lemma BlockMates(lines: seq<Line>, s: nat, m: nat, e: nat, at: nat)
    requires IsBlock(lines, s, m, e) && s <= at < e
    ensures MateOf(lines, at) ==
            if e - m != m - s then NoMate else if at < m then Mate(m + (at - s)) else Mate(s + (at - m))
  {
    if at < m {
      RunStartIs(lines, at, Removed, s);
      RunEndIs(lines, at, Removed, m);
      RunEndIs(lines, m, Added, e);
    } else {
      RunStartIs(lines, at, Added, m);
      RunEndIs(lines, at, Added, e);
      RunStartIs(lines, m - 1, Removed, s);
    }
  }

  /** Partners are mutual, and always one removal and one addition. */
  lemma MatesAreMutual(lines: seq<Line>, at: nat)
    requires at < |lines| && MateOf(lines, at).Mate?
    ensures MateOf(lines, MateOf(lines, at).index) == Mate(at)
    ensures {lines[at].typ, lines[MateOf(lines, at).index].typ} == {Removed, Added}
  {
    var s, m, e := BlockAround(lines, at);
    BlockMates(lines, s, m, e, at);
    BlockMates(lines, s, m, e, MateOf(lines, at).index);
  }

  lemma BlockAround(lines: seq<Line>, at: nat) returns (s: nat, m: nat, e: nat)
    requires at < |lines| && MateOf(lines, at).Mate?
    ensures IsBlock(lines, s, m, e) && s <= at < e && e - m == m - s
  {
    if lines[at].typ == Removed {
      s, m := RunStart(lines, at, Removed), RunEnd(lines, at, Removed);
      e := RunEnd(lines, m, Added);
    } else {
      m, e := RunStart(lines, at, Added), RunEnd(lines, at, Added);
      s := RunStart(lines, m - 1, Removed);
    }
  }

  // ----- highlighting in place -----

  /** What a line shows once the hunk has been highlighted. */
  ghost function Expected(lines: seq<Line>, at: nat, before: seq<Seg>): seq<Seg>
    requires at < |lines|
  {
    match MateOf(lines, at)
    case NoMate => before
    case Mate(j) =>
      if lines[at].typ == Removed then Highlights(lines[at].text, lines[j].text).oldSegs
      else Highlights(lines[j].text, lines[at].text).newSegs
  }

  ghost predicate Distinct(lines: seq<Line>) {
    forall i, j | 0 <= i < j < |lines| :: lines[i] != lines[j]
  }

  /** Where a scan may stand: never inside a block that it has not seen from its start. */
  ghost predicate AtHead(lines: seq<Line>, i: nat) {
    i < |lines| ==>
      && (lines[i].typ == Removed ==> i == 0 || lines[i - 1].typ != Removed)
      && (lines[i].typ == Added ==> MateOf(lines, i) == NoMate)
  }

  lemma StepOverAdded(lines: seq<Line>, i: nat)
    requires i < |lines| && lines[i].typ == Added && AtHead(lines, i)
    ensures AtHead(lines, i + 1)
  {
    if i + 1 < |lines| && lines[i + 1].typ == Added {
      assert RunStart(lines, i + 1, Added) == RunStart(lines, i, Added);
      assert RunEnd(lines, i, Added) == RunEnd(lines, i + 1, Added);
    }
  }

  lemma StepOverContext(lines: seq<Line>, i: nat)
    requires i < |lines| && lines[i].typ == Context
    ensures AtHead(lines, i + 1)
  {
    if i + 1 < |lines| && lines[i + 1].typ == Added {
      RunStartIs(lines, i + 1, Added, i + 1);
    }
  }

  /** Line `i` and the line `gap` further on carry the two sides of their comparison. */
  ghost predicate Shows(lines: seq<Line>, i: nat, gap: nat)
    requires i + gap < |lines|
    reads {lines[i], lines[i + gap]}
  {
    && lines[i].segments == Highlights(lines[i].text, lines[i + gap].text).oldSegs
    && lines[i + gap].segments == Highlights(lines[i].text, lines[i + gap].text).newSegs
  }

  /** Highlight one block of equally long runs, pair by pair. */
  method HighlightBlock(lines: seq<Line>, s: nat, gap: nat)
    requires Distinct(lines) && s + 2 * gap <= |lines|
    modifies (set k | s <= k < s + 2 * gap :: lines[k])`segments
    ensures forall p | s <= p < s + gap :: Shows(lines, p, gap)
    ensures forall p | 0 <= p < |lines| && !(s <= p < s + 2 * gap) :: lines[p].segments == old(lines[p].segments)
  {
    hide Highlights;
    for k := s to s + gap
      invariant forall p | s <= p < k :: Shows(lines, p, gap)
      invariant forall p | 0 <= p < |lines| && !(s <= p < s + 2 * gap) :: lines[p].segments == old(lines[p].segments)
    {
      var h := Compare(lines[k].text, lines[k + gap].text);
      lines[k].segments := h.oldSegs;
      lines[k + gap].segments := h.newSegs;
    }
  }

  lemma BlockAsExpected(lines: seq<Line>, s: nat, m: nat, e: nat, at: nat, before: seq<Seg>)
    requires IsBlock(lines, s, m, e) && s <= at < e && e - m == m - s
    requires Shows(lines, if at < m then at else at - (m - s), m - s)
    ensures lines[at].segments == Expected(lines, at, before)
  {
    hide MateOf;
    hide Highlights;
    hide AllOf;
    BlockMates(lines, s, m, e, at);
    InBlock(lines, s, m, e, at);
    if at < m {
      assert MateOf(lines, at) == Mate(at + (m - s));
    } else {
      assert MateOf(lines, at) == Mate(at - (m - s));
    }
    hide IsBlock;
  }

  lemma InBlock(lines: seq<Line>, s: nat, m: nat, e: nat, at: nat)
    requires IsBlock(lines, s, m, e) && s <= at < e
    ensures lines[at].typ == if at < m then Removed else Added
  {
  }

  lemma UnevenAsExpected(lines: seq<Line>, s: nat, m: nat, e: nat, at: nat, before: seq<Seg>)
    requires IsBlock(lines, s, m, e) && s <= at < e && e - m != m - s
    ensures Expected(lines, at, before) == before
  {
    BlockMates(lines, s, m, e, at);
  }

  lemma UnpairedAsExpected(lines: seq<Line>, at: nat, before: seq<Seg>)
    requires at < |lines| && lines[at].typ != Removed && AtHead(lines, at)
    ensures Expected(lines, at, before) == before
  {
  }

  lemma HeadAtStart(lines: seq<Line>)
    ensures AtHead(lines, 0)
  {
  }

  /** One run of removals and the additions after it: highlighted when equally long. */
  method HighlightRuns(lines: seq<Line>, i: nat) returns (addEnd: nat)
    requires Distinct(lines) && i < |lines| && lines[i].typ == Removed && AtHead(lines, i)
    modifies (set k | i <= k < |lines| :: lines[k])`segments
    ensures i < addEnd <= |lines| && AtHead(lines, addEnd)
    ensures forall k | i <= k < addEnd :: lines[k].segments == Expected(lines, k, old(lines[k].segments))
    ensures forall k | 0 <= k < |lines| && !(i <= k < addEnd) :: lines[k].segments == old(lines[k].segments)
  {
    hide Expected;
    hide Highlights;
    var delEnd := ScanRun(lines, i, Removed);
    addEnd := ScanRun(lines, delEnd, Added);
    assert IsBlock(lines, i, delEnd, addEnd);
    if delEnd - i == addEnd - delEnd {
      HighlightBlock(lines, i, delEnd - i);
    }
    forall k | i <= k < addEnd ensures lines[k].segments == Expected(lines, k, old(lines[k].segments)) {
      if delEnd - i == addEnd - delEnd {
        BlockAsExpected(lines, i, delEnd, addEnd, k, old(lines[k].segments));
      } else {
        UnevenAsExpected(lines, i, delEnd, addEnd, k, old(lines[k].segments));
      }
    }
  }

  /** Highlights every pair of partners and touches nothing else. */
  method ComputeIntralineHighlights(lines: seq<Line>)
    requires Distinct(lines)
    modifies (set k | 0 <= k < |lines| :: lines[k])`segments
    ensures forall k | 0 <= k < |lines| :: lines[k].segments == Expected(lines, k, old(lines[k].segments))
  {
    hide Expected;
    HeadAtStart(lines);
    hide AtHead;
    var i := 0;
    while i < |lines|
      invariant 0 <= i <= |lines| && AtHead(lines, i)
      invariant forall k | 0 <= k < i :: lines[k].segments == Expected(lines, k, old(lines[k].segments))
      invariant forall k | i <= k < |lines| :: lines[k].segments == old(lines[k].segments)
    {
      if lines[i].typ == Removed {
        i := HighlightRuns(lines, i);
      } else {
        UnpairedAsExpected(lines, i, lines[i].segments);
        if lines[i].typ == Added { StepOverAdded(lines, i); } else { StepOverContext(lines, i); }
        i := i + 1;
      }
    }
  }

  // ----- side-by-side rows -----

  /** The k-th removal beside the k-th addition; the shorter run is padded with blanks. */
  function BlockRows(lines: seq<Line>, s: nat, m: nat, e: nat): seq<Row>
    requires s <= m <= e <= |lines|
  {
    seq(Max(m - s, e - m), (k: nat) => Row(if s + k < m then lines[s + k] else null,
                                           if m + k < e then lines[m + k] else null))
  }

  function RowsFrom(lines: seq<Line>, i: nat): seq<Row>
    requires i <= |lines|
    decreases |lines| - i
  {
    if i == |lines| then []
    else match lines[i].typ
      case Context => [Row(lines[i], lines[i])] + RowsFrom(lines, i + 1)
      case Removed =>
        var m := RunEnd(lines, i, Removed);
        var e := RunEnd(lines, m, Added);
        BlockRows(lines, i, m, e) + RowsFrom(lines, e)
      case Added => [Row(null, lines[i])] + RowsFrom(lines, i + 1)
  }

  method SplitRowsFor(lines: seq<Line>) returns (rows: seq<Row>)
    ensures rows == RowsFrom(lines, 0)
    ensures |rows| == RowsBegun(lines, 0, |lines|)
    ensures forall at | 0 <= at < |lines| && StartsRow(lines, at) ::
      RowsBegun(lines, 0, at) < |rows| && rows[RowsBegun(lines, 0, at)] == RowOf(lines, at)
  {
    RowsAreThoseBegun(lines);
    hide StartsRow;
    hide RowOf;
    hide RowsBegun;
    rows := [];
    var i := 0;
    while i < |lines|
      invariant 0 <= i <= |lines|
      invariant RowsFrom(lines, 0) == rows + RowsFrom(lines, i)
    {
      ghost var before := rows;
      var block, next;
      if lines[i].typ == Context {
        block, next := [Row(lines[i], lines[i])], i + 1;
      } else if lines[i].typ == Removed {
        var delEnd := ScanRun(lines, i, Removed);
        next := ScanRun(lines, delEnd, Added);
        block := PairRuns(lines, i, delEnd, next);
      } else {
        block, next := [Row(null, lines[i])], i + 1;
      }
      assert RowsFrom(lines, i) == block + RowsFrom(lines, next);
      Regroup(rows, block, RowsFrom(lines, next));
      rows, i := rows + block, next;
    }
  }

  lemma Regroup(a: seq<Row>, b: seq<Row>, c: seq<Row>)
    ensures a + (b + c) == a + b + c
  {
  }

  method PairRuns(lines: seq<Line>, s: nat, m: nat, e: nat) returns (rows: seq<Row>)
    requires s <= m <= e <= |lines|
    ensures rows == BlockRows(lines, s, m, e)
  {
    rows := [];
    for k := 0 to Max(m - s, e - m)
      invariant rows == BlockRows(lines, s, m, e)[..k]
    {
      rows := rows + [Row(if s + k < m then lines[s + k] else null, if m + k < e then lines[m + k] else null)];
    }
  }

  // ----- what the rows keep -----

  /** The non-blank cells of one column, top to bottom. */
  ghost function Cells(rows: seq<Row>, left: bool): seq<Line> {
    if rows == [] then [] else Cell(rows[0], left) + Cells(rows[1..], left)
  }

  ghost function Cell(row: Row, left: bool): seq<Line> {
    var cell := if left then row.left else row.right;
    if cell == null then [] else [cell]
  }

  ghost function Lefts(rows: seq<Row>): seq<Line> { Cells(rows, true) }

  ghost function Rights(rows: seq<Row>): seq<Line> { Cells(rows, false) }

  /** The lines that are not of the hidden type, in order. */
  ghost function Without(lines: seq<Line>, hidden: LineType): seq<Line> {
    if lines == [] then []
    else if lines[0].typ == hidden then Without(lines[1..], hidden)
    else [lines[0]] + Without(lines[1..], hidden)
  }

  lemma {:induction false} CellsAppend(a: seq<Row>, b: seq<Row>, left: bool)
    ensures Cells(a + b, left) == Cells(a, left) + Cells(b, left)
  {
    if a == [] {
      assert a + b == b;
    } else {
      CellsAppend(a[1..], b, left);
      assert (a + b)[1..] == a[1..] + b;
      assert Cells(a + b, left) == Cell(a[0], left) + (Cells(a[1..], left) + Cells(b, left));
    }
  }

  lemma {:induction false} WithoutAppend(a: seq<Line>, b: seq<Line>, hidden: LineType)
    ensures Without(a + b, hidden) == Without(a, hidden) + Without(b, hidden)
  {
    if a == [] {
      assert a + b == b;
    } else {
      WithoutAppend(a[1..], b, hidden);
      assert (a + b)[1..] == a[1..] + b;
    }
  }

  lemma {:induction false} WithoutUniform(lines: seq<Line>, lo: nat, hi: nat, typ: LineType, hidden: LineType)
    requires lo <= hi && AllOf(lines, lo, hi, typ)
    ensures Without(lines[lo..hi], hidden) == (if typ == hidden then [] else lines[lo..hi])
    decreases hi - lo
  {
    if lo < hi {
      WithoutUniform(lines, lo + 1, hi, typ, hidden);
      assert lines[lo..hi][1..] == lines[lo + 1..hi];
    }
  }

  /** What one column shows in a row. */
  ghost function Side(row: Row, left: bool): Line? {
    if left then row.left else row.right
  }

  /** A column that shows lines[lo..hi] and then blanks, from its k-th row on. */
  lemma {:induction false} ColumnCells(rows: seq<Row>, left: bool, lines: seq<Line>, lo: nat, hi: nat, k: nat)
    requires lo <= hi <= |lines| && hi - lo <= |rows| && k <= |rows|
    requires forall j | 0 <= j < |rows| :: Side(rows[j], left) == if lo + j < hi then lines[lo + j] else null
    ensures Cells(rows[k..], left) == if lo + k < hi then lines[lo + k..hi] else []
    decreases |rows| - k
  {
    if k < |rows| {
      ColumnCells(rows, left, lines, lo, hi, k + 1);
      assert rows[k..][0] == rows[k] && rows[k..][1..] == rows[k + 1..];
      assert Cell(rows[k], left) == if lo + k < hi then [lines[lo + k]] else [];
      hide Side;
      hide Cell;
      if lo + k < hi {
        assert lines[lo + k..hi] == [lines[lo + k]] + lines[lo + k + 1..hi];
      }
    }
  }

  lemma BlockKeepsLines(lines: seq<Line>, s: nat, m: nat, e: nat)
    requires s <= m <= e && AllOf(lines, s, m, Removed) && AllOf(lines, m, e, Added)
    ensures Lefts(BlockRows(lines, s, m, e)) == Without(lines[s..e], Added)
    ensures Rights(BlockRows(lines, s, m, e)) == Without(lines[s..e], Removed)
  {
    hide BlockRows;
    hide Cells;
    hide Without;
    BlockColumns(lines, s, m, e);
    assert lines[s..e] == lines[s..m] + lines[m..e];
    WithoutAppend(lines[s..m], lines[m..e], Added);
    WithoutAppend(lines[s..m], lines[m..e], Removed);
    WithoutUniform(lines, s, m, Removed, Added);
    WithoutUniform(lines, m, e, Added, Added);
    WithoutUniform(lines, s, m, Removed, Removed);
    WithoutUniform(lines, m, e, Added, Removed);
  }

  lemma BlockColumns(lines: seq<Line>, s: nat, m: nat, e: nat)
    requires s <= m <= e <= |lines|
    ensures Lefts(BlockRows(lines, s, m, e)) == lines[s..m] && Rights(BlockRows(lines, s, m, e)) == lines[m..e]
  {
    hide Cells;
    var rows := BlockRows(lines, s, m, e);
    ColumnCells(rows, true, lines, s, m, 0);
    ColumnCells(rows, false, lines, m, e, 0);
    hide BlockRows;
    assert rows[0..] == rows;
  }

  /** Left cells are the context and removed lines in order, right cells the context and
      added lines in order: nothing is lost, repeated or moved. */
  lemma {:induction false} RowsKeepLines(lines: seq<Line>, i: nat)
    requires i <= |lines|
    ensures Lefts(RowsFrom(lines, i)) == Without(lines[i..], Added)
    ensures Rights(RowsFrom(lines, i)) == Without(lines[i..], Removed)
    decreases |lines| - i
  {
    if i < |lines| {
      if lines[i].typ == Removed {
        var m := RunEnd(lines, i, Removed);
        var e := RunEnd(lines, m, Added);
        RowsKeepLines(lines, e);
        BlockStep(lines, i, m, e);
      } else {
        RowsKeepLines(lines, i + 1);
        SingleStep(lines, i);
      }
    }
  }

  ghost predicate KeptFrom(lines: seq<Line>, i: nat)
    requires i <= |lines|
  {
    && Lefts(RowsFrom(lines, i)) == Without(lines[i..], Added)
    && Rights(RowsFrom(lines, i)) == Without(lines[i..], Removed)
  }

  lemma BlockStep(lines: seq<Line>, i: nat, m: nat, e: nat)
    requires i < |lines| && lines[i].typ == Removed && m == RunEnd(lines, i, Removed) && e == RunEnd(lines, m, Added)
    requires KeptFrom(lines, e)
    ensures KeptFrom(lines, i)
  {
    hide Cells;
    hide Without;
    hide BlockRows;
    var block, rest := BlockRows(lines, i, m, e), RowsFrom(lines, e);
    BlockKeepsLines(lines, i, m, e);
    CellsAppend(block, rest, true);
    CellsAppend(block, rest, false);
    assert lines[i..] == lines[i..e] + lines[e..];
    WithoutAppend(lines[i..e], lines[e..], Added);
    WithoutAppend(lines[i..e], lines[e..], Removed);
  }

  lemma SingleStep(lines: seq<Line>, i: nat)
    requires i < |lines| && lines[i].typ != Removed && KeptFrom(lines, i + 1)
    ensures KeptFrom(lines, i)
  {
    assert lines[i..][1..] == lines[i + 1..];
    assert RowsFrom(lines, i)[1..] == RowsFrom(lines, i + 1);
  }

  /** No row is blank on both sides. */
  lemma {:induction false} NoEmptyRow(lines: seq<Line>, i: nat)
    requires i <= |lines|
    ensures forall r <- RowsFrom(lines, i) :: r.left != null || r.right != null
    decreases |lines| - i
  {
    if i < |lines| {
      if lines[i].typ == Removed {
        var e := RunEnd(lines, RunEnd(lines, i, Removed), Added);
        NoEmptyRow(lines, e);
      } else {
        NoEmptyRow(lines, i + 1);
      }
    }
  }

  /** Lines that are compared word by word are shown side by side. */
  lemma {:induction false} PartnersShareARow(lines: seq<Line>, i: nat, at: nat)
    requires i <= at < |lines| && lines[at].typ == Removed && MateOf(lines, at).Mate?
    requires AtHead(lines, i)
    ensures Row(lines[at], lines[MateOf(lines, at).index]) in RowsFrom(lines, i)
    decreases |lines| - i
  {
    if lines[i].typ == Removed {
      var m := RunEnd(lines, i, Removed);
      var e := RunEnd(lines, m, Added);
      if at < e {
        BlockMates(lines, i, m, e, at);
        assert BlockRows(lines, i, m, e)[at - i] == Row(lines[at], lines[m + (at - i)]);
      } else {
        PartnersShareARow(lines, e, at);
      }
    } else {
      if lines[i].typ == Added { StepOverAdded(lines, i); } else { StepOverContext(lines, i); }
      PartnersShareARow(lines, i + 1, at);
    }
  }

  // ----- every row, read off the lines -----

  /** A line begins a row of its own, unless it is an addition that a removal of the run before it
      stands beside. */
  ghost predicate StartsRow(lines: seq<Line>, at: nat)
    requires at < |lines|
  {
    lines[at].typ == Added ==>
      var m := RunStart(lines, at, Added);
      m == 0 || lines[m - 1].typ != Removed || at - m >= m - RunStart(lines, m - 1, Removed)
  }

  /** The row it begins: context on both sides, a removal beside the addition at its offset. */
  ghost function RowOf(lines: seq<Line>, at: nat): Row
    requires at < |lines|
  {
    match lines[at].typ
    case Context => Row(lines[at], lines[at])
    case Added => Row(null, lines[at])
    case Removed =>
      var m := RunEnd(lines, at, Removed);
      var partner := m + (at - RunStart(lines, at, Removed));
      Row(lines[at], if partner < RunEnd(lines, m, Added) then lines[partner] else null)
  }

  /** How many lines of a stretch begin a row. */
  ghost function RowsBegun(lines: seq<Line>, lo: nat, hi: nat): nat
    requires lo <= hi <= |lines|
    decreases hi - lo
  {
    if lo == hi then 0 else RowsBegun(lines, lo, hi - 1) + (if StartsRow(lines, hi - 1) then 1 else 0)
  }

  lemma {:induction false} RowsBegunAppend(lines: seq<Line>, lo: nat, mid: nat, hi: nat)
    requires lo <= mid <= hi <= |lines|
    ensures RowsBegun(lines, lo, hi) == RowsBegun(lines, lo, mid) + RowsBegun(lines, mid, hi)
    decreases hi - mid
  {
    if mid < hi {
      RowsBegunAppend(lines, lo, mid, hi - 1);
    }
  }

  /** Where a scan may stand, whatever it does with the block it comes to. */
  ghost predicate AtEdge(lines: seq<Line>, i: nat) {
    i < |lines| ==>
      && (lines[i].typ == Removed ==> i == 0 || lines[i - 1].typ != Removed)
      && (lines[i].typ == Added ==>
           var m := RunStart(lines, i, Added);
           m == 0 || lines[m - 1].typ != Removed)
  }

  lemma BlockLines(lines: seq<Line>, s: nat, m: nat, e: nat, at: nat)
    requires IsBlock(lines, s, m, e) && s <= at < e
    ensures StartsRow(lines, at) <==> at < m || at - m >= m - s
    ensures StartsRow(lines, at) ==>
      RowOf(lines, at) ==
        if at < m then Row(lines[at], if m + (at - s) < e then lines[m + (at - s)] else null) else Row(null, lines[at])
  {
    if at < m {
      RunStartIs(lines, at, Removed, s);
      RunEndIs(lines, at, Removed, m);
      RunEndIs(lines, m, Added, e);
    } else {
      RunStartIs(lines, at, Added, m);
      RunStartIs(lines, m - 1, Removed, s);
    }
  }

  lemma {:induction false} BlockBegins(lines: seq<Line>, s: nat, m: nat, e: nat, at: nat)
    requires IsBlock(lines, s, m, e) && s <= at <= e
    ensures RowsBegun(lines, s, at) == if at <= m then at - s else Max(m - s, at - m)
    decreases at
  {
    if at > s {
      BlockBegins(lines, s, m, e, at - 1);
      BlockLines(lines, s, m, e, at - 1);
      hide StartsRow;
    }
  }

  /** The rows from here on are those that the lines begin, in their order. */
  ghost predicate Described(lines: seq<Line>, i: nat)
    requires i <= |lines|
  {
    && |RowsFrom(lines, i)| == RowsBegun(lines, i, |lines|)
    && forall at | i <= at < |lines| && StartsRow(lines, at) ::
         RowsBegun(lines, i, at) < |RowsFrom(lines, i)|
           && RowsFrom(lines, i)[RowsBegun(lines, i, at)] == RowOf(lines, at)
  }

  lemma DescribedStep(lines: seq<Line>, i: nat, next: nat, block: seq<Row>)
    requires i <= next <= |lines| && Described(lines, next) && RowsFrom(lines, i) == block + RowsFrom(lines, next)
    requires |block| == RowsBegun(lines, i, next)
    requires forall at | i <= at < next && StartsRow(lines, at) ::
      RowsBegun(lines, i, at) < |block| && block[RowsBegun(lines, i, at)] == RowOf(lines, at)
    ensures Described(lines, i)
  {
    hide RowsFrom;
    hide RowsBegun;
    hide StartsRow;
    hide RowOf;
    RowsBegunAppend(lines, i, next, |lines|);
    forall at | i <= at < |lines| && StartsRow(lines, at)
      ensures RowsBegun(lines, i, at) < |RowsFrom(lines, i)|
      ensures RowsFrom(lines, i)[RowsBegun(lines, i, at)] == RowOf(lines, at)
    {
      if at >= next {
        RowsBegunAppend(lines, i, next, at);
      }
    }
  }

  lemma BlockDescribed(lines: seq<Line>, i: nat, m: nat, e: nat)
    requires IsBlock(lines, i, m, e) && Described(lines, e)
      && RowsFrom(lines, i) == BlockRows(lines, i, m, e) + RowsFrom(lines, e)
    ensures Described(lines, i)
  {
    hide RowsFrom;
    hide RowsBegun;
    hide Described;
    hide StartsRow;
    hide RowOf;
    var block := BlockRows(lines, i, m, e);
    BlockBegins(lines, i, m, e, e);
    forall at | i <= at < e && StartsRow(lines, at)
      ensures RowsBegun(lines, i, at) < |block| && block[RowsBegun(lines, i, at)] == RowOf(lines, at)
    {
      BlockLines(lines, i, m, e, at);
      BlockBegins(lines, i, m, e, at);
    }
    DescribedStep(lines, i, e, block);
  }

  lemma {:induction false} RowsAreDescribed(lines: seq<Line>, i: nat)
    requires i <= |lines| && AtEdge(lines, i)
    ensures Described(lines, i)
    decreases |lines| - i
  {
    if i < |lines| {
      hide RowsBegun;
      hide Described;
      if lines[i].typ == Removed {
        var m := RunEnd(lines, i, Removed);
        var e := RunEnd(lines, m, Added);
        RowsAreDescribed(lines, e);
        BlockDescribed(lines, i, m, e);
      } else {
        EdgeMoves(lines, i);
        RowsAreDescribed(lines, i + 1);
        OneLineBegins(lines, i);
        DescribedStep(lines, i, i + 1, [RowOf(lines, i)]);
      }
    }
  }

  lemma OneLineBegins(lines: seq<Line>, i: nat)
    requires i < |lines| && lines[i].typ != Removed && AtEdge(lines, i)
    ensures StartsRow(lines, i) && RowsBegun(lines, i, i) == 0 && RowsBegun(lines, i, i + 1) == 1
  {
  }

  lemma EdgeMoves(lines: seq<Line>, i: nat)
    requires i < |lines| && lines[i].typ != Removed && AtEdge(lines, i)
    ensures AtEdge(lines, i + 1)
  {
    if i + 1 < |lines| && lines[i + 1].typ == Added && lines[i].typ == Context {
      RunStartIs(lines, i + 1, Added, i + 1);
    }
  }

  /** The side-by-side view, row by row: one row for each context line, each removal and each
      addition that no removal stands beside, in the order of the lines, and nothing else. */
  lemma RowsAreThoseBegun(lines: seq<Line>)
    ensures |RowsFrom(lines, 0)| == RowsBegun(lines, 0, |lines|)
    ensures forall at | 0 <= at < |lines| && StartsRow(lines, at) ::
      RowsBegun(lines, 0, at) < |RowsFrom(lines, 0)| && RowsFrom(lines, 0)[RowsBegun(lines, 0, at)] == RowOf(lines, at)
  {
    RowsAreDescribed(lines, 0);
  }

  /** The r-th row of a block whose rows begin at `top`. */
  ghost function RowInBlock(lines: seq<Line>, s: nat, m: nat, e: nat, top: nat, r: nat): Row
    requires s <= m <= e <= |lines| && top <= r < top + Max(m - s, e - m)
  {
    var k := r - top;
    Row(if k < m - s then lines[s + k] else null, if k < e - m then lines[m + k] else null)
  }

  /** A block of removals and additions takes as many rows as its longer run, one below the other:
      offsets that both runs have share a row, the others have a blank beside them. */
  lemma BlocksArePaired(lines: seq<Line>, s: nat, m: nat, e: nat) returns (top: nat)
    requires IsBlock(lines, s, m, e)
    ensures top + Max(m - s, e - m) <= |RowsFrom(lines, 0)|
    ensures forall r | top <= r < top + Max(m - s, e - m) :: RowsFrom(lines, 0)[r] == RowInBlock(lines, s, m, e, top, r)
  {
    hide RowsFrom;
    hide RowsBegun;
    hide StartsRow;
    hide RowOf;
    top := RowsBegun(lines, 0, s);
    BlockFits(lines, s, m, e);
    forall r | top <= r < top + Max(m - s, e - m)
      ensures RowsFrom(lines, 0)[r] == RowInBlock(lines, s, m, e, top, r)
    {
      RowFromBlock(lines, s, m, e, top, r);
    }
  }

  lemma BlockFits(lines: seq<Line>, s: nat, m: nat, e: nat)
    requires IsBlock(lines, s, m, e)
    ensures RowsBegun(lines, 0, s) + Max(m - s, e - m) <= |RowsFrom(lines, 0)|
  {
    hide RowsFrom;
    hide RowsBegun;
    hide StartsRow;
    hide RowOf;
    RowsAreThoseBegun(lines);
    RowsBegunAppend(lines, 0, s, e);
    RowsBegunAppend(lines, 0, e, |lines|);
    BlockBegins(lines, s, m, e, e);
  }

  lemma RowFromBlock(lines: seq<Line>, s: nat, m: nat, e: nat, top: nat, r: nat)
    requires IsBlock(lines, s, m, e) && top == RowsBegun(lines, 0, s) && top <= r < top + Max(m - s, e - m)
    ensures r < |RowsFrom(lines, 0)| && RowsFrom(lines, 0)[r] == RowInBlock(lines, s, m, e, top, r)
  {
    hide RowsFrom;
    hide RowsBegun;
    hide StartsRow;
    hide RowOf;
    var k := r - top;
    var at := if k < m - s then s + k else m + k;
    RowsAreThoseBegun(lines);
    BlockLines(lines, s, m, e, at);
    BlockBegins(lines, s, m, e, at);
    RowsBegunAppend(lines, 0, s, at);
  }
}
