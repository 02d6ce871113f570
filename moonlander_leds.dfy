/**
 * scripts/moonlander_leds.py: it reads the Moonlander's LED numbers off a
 * drawing of the board, one line per row of keys, and writes the
 * `LED_LAYOUT` macro whose parameters follow the drawing, together with
 * `LED_LAYOUT_ALL`. The `print` of the result is not modelled; the three
 * pieces it formats are.
 */
module MoonlanderLeds {
  import opened Text
  import opened LedLayout

  /** A number of the drawing, with the spaces written before it on its line. */
  datatype Cell = Cell(gap: nat, led: nat)

  /** The text of a line of the drawing. */
  function LineText(cells: seq<Cell>): string {
    if cells == [] then []
    else
      var last := cells[|cells| - 1];
      LineText(cells[..|cells| - 1]) + Spaces(last.gap) + NatText(last.led)
  }

  /** Every number but the first is set off from the one before it by a space. */
  predicate Spaced(cells: seq<Cell>) {
    forall i :: 0 < i < |cells| ==> cells[i].gap >= 1
  }

  /** Line 2 of the script: the first row of the drawing. */
  const Row0: seq<Cell> := [Cell(0, 0), Cell(1, 5), Cell(1, 10), Cell(1, 15), Cell(1, 20), Cell(1, 25), Cell(1, 29), Cell(9, 65), Cell(1, 61), Cell(1, 56), Cell(1, 51), Cell(1, 46), Cell(1, 41), Cell(1, 36)]

  /** Line 3 of the script: the second row of the drawing. */
  const Row1: seq<Cell> := [Cell(0, 1), Cell(1, 6), Cell(1, 11), Cell(1, 16), Cell(1, 21), Cell(1, 26), Cell(1, 30), Cell(9, 66), Cell(1, 62), Cell(1, 57), Cell(1, 52), Cell(1, 47), Cell(1, 42), Cell(1, 37)]

  /** Line 4 of the script: the third row of the drawing. */
  const Row2: seq<Cell> := [Cell(0, 2), Cell(1, 7), Cell(1, 12), Cell(1, 17), Cell(1, 22), Cell(1, 27), Cell(1, 31), Cell(9, 67), Cell(1, 63), Cell(1, 58), Cell(1, 53), Cell(1, 48), Cell(1, 43), Cell(1, 38)]

  /** Line 5 of the script: the fourth row of the drawing. */
  const Row3: seq<Cell> := [Cell(0, 3), Cell(1, 8), Cell(1, 13), Cell(1, 18), Cell(1, 23), Cell(1, 28), Cell(15, 64), Cell(1, 59), Cell(1, 54), Cell(1, 49), Cell(1, 44), Cell(1, 39)]

  /** Line 6 of the script: the fifth row of the drawing. */
  const Row4: seq<Cell> := [Cell(0, 4), Cell(1, 9), Cell(1, 14), Cell(1, 19), Cell(1, 24), Cell(4, 35), Cell(9, 71), Cell(4, 60), Cell(1, 55), Cell(1, 50), Cell(1, 45), Cell(1, 40)]

  /** Line 7 of the script: the sixth row of the drawing. */
  const Row5: seq<Cell> := [Cell(13, 32), Cell(1, 33), Cell(1, 34), Cell(3, 70), Cell(1, 69), Cell(1, 68)]

  /** The lines of a drawing. */
  function LineTexts(rows: seq<seq<Cell>>): (lines: seq<string>)
    ensures |lines| == |rows|
  {
    seq(|rows|, i requires 0 <= i < |rows| => LineText(rows[i]))
  }

  /** A triple-quoted literal holding a drawing: a newline, then each line followed by a newline. */
  function Drawing(rows: seq<seq<Cell>>): string {
    Join([""] + LineTexts(rows) + [""], '\n')
  }

  /** The script's `layout`. */
  const Layout: string := Drawing([Row0, Row1, Row2, Row3, Row4, Row5])

  /**
   * What the inner loop appends for the columns of one line: each column
   * stripped and, unless that leaves it empty, prefixed with `l`.
   */
  function ColumnIndices(cols: seq<string>): seq<string> {
    if cols == [] then []
    else
      var col := Strip(cols[|cols| - 1]);
      ColumnIndices(cols[..|cols| - 1]) + (if col == [] then [] else ["l" + col])
  }

  /** `layout_indices` once the outer loop has gone through `lines`. */
  function Indices(lines: seq<string>): seq<string> {
    if lines == [] then []
    else Indices(lines[..|lines| - 1]) + ColumnIndices(Words(lines[|lines| - 1]))
  }

  /** The nested loop that collects `layout_indices`. */
  method LayoutIndices(layout: string) returns (indices: seq<string>)
    ensures indices == Indices(Split(layout, '\n'))
  {
    var lines := Split(layout, '\n');
    indices := [];
    var r := 0;
    while r < |lines|
      invariant 0 <= r <= |lines|
      invariant indices == Indices(lines[..r])
    {
      indices := AppendColumns(indices, Words(lines[r]));
      assert lines[..r + 1][..r] == lines[..r];
      r := r + 1;
    }
    assert lines[..r] == lines;
  }

  /** The inner loop, over the columns `row.split()` yields for one line. */
  method AppendColumns(indices0: seq<string>, cols: seq<string>) returns (indices: seq<string>)
    ensures indices == indices0 + ColumnIndices(cols)
  {
    indices := indices0;
    var c := 0;
    while c < |cols|
      invariant 0 <= c <= |cols|
      invariant indices == indices0 + ColumnIndices(cols[..c])
    {
      var col := Strip(cols[c]);
      if col != [] {
        indices := indices + ["l" + col];
      }
      assert cols[..c + 1][..c] == cols[..c];
      c := c + 1;
    }
    assert cols[..c] == cols;
  }

  /** Stripping and the empty test drop nothing from the tokens of `split()`. */
  lemma {:induction false} ColumnIndicesOfTokens(cols: seq<string>)
    requires forall i :: 0 <= i < |cols| ==> cols[i] != [] && NoSpace(cols[i])
    ensures ColumnIndices(cols) == seq(|cols|, i requires 0 <= i < |cols| => "l" + cols[i])
  {
    if cols != [] {
      var last := cols[|cols| - 1];
      StripWord(last);
      ColumnIndicesOfTokens(cols[..|cols| - 1]);
    }
  }

  /** A blank line contributes nothing. */
  lemma BlankLineAddsNothing(lines: seq<string>, line: string)
    requires AllSpace(line)
    ensures Indices(lines + [line]) == Indices(lines)
  {
    WordsOfBlank(line);
    assert (lines + [line])[..|lines|] == lines;
  }

  /** The words of a spaced line of the drawing are its numbers, in decimal. */
  lemma {:induction false} LineWords(cells: seq<Cell>)
    requires Spaced(cells)
    ensures Words(LineText(cells)) == seq(|cells|, i requires 0 <= i < |cells| => NatText(cells[i].led))
  {
    if cells != [] {
      var init, last := cells[..|cells| - 1], cells[|cells| - 1];
      assert Spaced(init);
      LineWords(init);
      assert init == [] || last.gap >= 1;
      WordsAppendWord(LineText(init), last.gap, NatText(last.led));
    }
  }

  /** A line of the drawing has no newline in it. */
  lemma {:induction false} LineHasNoNewline(cells: seq<Cell>)
    ensures '\n' !in LineText(cells)
  {
    if cells != [] {
      LineHasNoNewline(cells[..|cells| - 1]);
      var last := cells[|cells| - 1];
      assert '\n' !in NatText(last.led);
    }
  }

  /** The indices one spaced line of the drawing adds. */
  function RowIndices(cells: seq<Cell>): (r: seq<string>)
    ensures |r| == |cells|
  {
    seq(|cells|, i requires 0 <= i < |cells| => "l" + NatText(cells[i].led))
  }

  lemma LineIndices(lines: seq<string>, cells: seq<Cell>)
    requires Spaced(cells)
    ensures Indices(lines + [LineText(cells)]) == Indices(lines) + RowIndices(cells)
  {
    assert (lines + [LineText(cells)])[..|lines|] == lines;
    LineWords(cells);
    ColumnIndicesOfTokens(Words(LineText(cells)));
  }

  lemma Row0FollowsParams()
    ensures Spaced(Row0) && |Row0| == 14
    ensures forall j :: 0 <= j < 14 ==> Row0[j].led == Param(j)
  {
  }

  lemma Row1FollowsParams()
    ensures Spaced(Row1) && |Row1| == 14
    ensures forall j :: 0 <= j < 14 ==> Row1[j].led == Param(14 + j)
  {
  }

  lemma Row2FollowsParams()
    ensures Spaced(Row2) && |Row2| == 14
    ensures forall j :: 0 <= j < 14 ==> Row2[j].led == Param(28 + j)
  {
  }

  lemma Row3FollowsParams()
    ensures Spaced(Row3) && |Row3| == 12
    ensures forall j :: 0 <= j < 12 ==> Row3[j].led == Param(42 + j)
  {
  }

  lemma Row4FollowsParams()
    ensures Spaced(Row4) && |Row4| == 12
    ensures forall j :: 0 <= j < 12 ==> Row4[j].led == Param(54 + j)
  {
  }

  lemma Row5FollowsParams()
    ensures Spaced(Row5) && |Row5| == 6
    ensures forall j :: 0 <= j < 6 ==> Row5[j].led == Param(66 + j)
  {
  }

  /** The `l`-names of the numbers of a drawing, in reading order. */
  function DrawingIndices(rows: seq<seq<Cell>>): seq<string> {
    if rows == [] then []
    else DrawingIndices(rows[..|rows| - 1]) + RowIndices(rows[|rows| - 1])
  }

  /** `layout.split("\\n")` gives back the lines of the drawing, between two empty ones. */
  lemma DrawingLines(rows: seq<seq<Cell>>)
    ensures Split(Drawing(rows), '\n') == [""] + LineTexts(rows) + [""]
  {
    var lines := [""] + LineTexts(rows) + [""];
    forall i | 0 <= i < |lines|
      ensures '\n' !in lines[i]
    {
      if 1 <= i <= |rows| {
        LineHasNoNewline(rows[i - 1]);
      }
    }
    SplitJoin(lines, '\n');
  }

  lemma {:induction false} IndicesOfLines(rows: seq<seq<Cell>>)
    requires forall i :: 0 <= i < |rows| ==> Spaced(rows[i])
    ensures Indices([""] + LineTexts(rows)) == DrawingIndices(rows)
  {
    if rows == [] {
      assert [""] + LineTexts(rows) == [""];
      assert [""][..0] == [];
    } else {
      var init, last := rows[..|rows| - 1], rows[|rows| - 1];
      IndicesOfLines(init);
      assert [""] + LineTexts(rows) == ([""] + LineTexts(init)) + [LineText(last)];
      LineIndices([""] + LineTexts(init), last);
    }
  }

  /** For any drawing whose numbers are spaced, `layout_indices` names its numbers in reading order. */
  lemma IndicesOfDrawing(rows: seq<seq<Cell>>)
    requires forall i :: 0 <= i < |rows| ==> Spaced(rows[i])
    ensures Indices(Split(Drawing(rows), '\n')) == DrawingIndices(rows)
  {
    DrawingLines(rows);
    IndicesOfLines(rows);
    BlankLineAddsNothing([""] + LineTexts(rows), "");
  }

  /** The script's drawing, row by row. */
  lemma LayoutRows()
    ensures var rows := [Row0, Row1, Row2, Row3, Row4, Row5];
      (forall i :: 0 <= i < |rows| ==> Spaced(rows[i]))
      && DrawingIndices(rows)
         == RowIndices(Row0) + RowIndices(Row1) + RowIndices(Row2) + RowIndices(Row3) + RowIndices(Row4) + RowIndices(Row5)
  {
    Row0FollowsParams();
    Row1FollowsParams();
    Row2FollowsParams();
    Row3FollowsParams();
    Row4FollowsParams();
    Row5FollowsParams();
    var q0 := [Row0];
    var q1 := q0 + [Row1];
    var q2 := q1 + [Row2];
    var q3 := q2 + [Row3];
    var q4 := q3 + [Row4];
    var q5 := q4 + [Row5];
    assert DrawingIndices(q0) == RowIndices(Row0) by {
      assert q0[..0] == [];
    }
    assert DrawingIndices(q1) == DrawingIndices(q0) + RowIndices(Row1) by {
      assert q1[..1] == q0;
    }
    assert DrawingIndices(q2) == DrawingIndices(q1) + RowIndices(Row2) by {
      assert q2[..2] == q1;
    }
    assert DrawingIndices(q3) == DrawingIndices(q2) + RowIndices(Row3) by {
      assert q3[..3] == q2;
    }
    assert DrawingIndices(q4) == DrawingIndices(q3) + RowIndices(Row4) by {
      assert q4[..4] == q3;
    }
    assert DrawingIndices(q5) == DrawingIndices(q4) + RowIndices(Row5) by {
      assert q5[..5] == q4;
    }
    assert q5 == [Row0, Row1, Row2, Row3, Row4, Row5];
  }

  /** `l<Param(0)>` … `l<Param(71)>`: config.h's parameter list. */
  function ParamNames(): (r: seq<string>)
    ensures |r| == LedCount && forall p :: 0 <= p < LedCount ==> r[p] == "l" + NatText(Param(p))
  {
    seq(LedCount, p requires 0 <= p < LedCount => "l" + NatText(Param(p)))
  }

  lemma RowNames(row: seq<Cell>, start: nat)
    requires start + |row| <= LedCount && forall j :: 0 <= j < |row| ==> row[j].led == Param(start + j)
    ensures RowIndices(row) == ParamNames()[start..start + |row|]
  {
  }

  lemma SliceAppend<T>(x: seq<T>, i: nat, j: nat, k: nat)
    requires i <= j <= k <= |x|
    ensures x[i..j] + x[j..k] == x[i..k]
  {
  }

  /** Read one after the other, the rows name the LEDs in the order of config.h's parameter list. */
  lemma RowsFollowParams()
    ensures var all := RowIndices(Row0) + RowIndices(Row1) + RowIndices(Row2) + RowIndices(Row3) + RowIndices(Row4) + RowIndices(Row5);
      |all| == LedCount && forall p :: 0 <= p < LedCount ==> all[p] == "l" + NatText(Param(p))
  {
    Row0FollowsParams();
    Row1FollowsParams();
    Row2FollowsParams();
    Row3FollowsParams();
    Row4FollowsParams();
    Row5FollowsParams();
    var x := ParamNames();
    RowNames(Row0, 0);
    RowNames(Row1, 14);
    RowNames(Row2, 28);
    RowNames(Row3, 42);
    RowNames(Row4, 54);
    RowNames(Row5, 66);
    SliceAppend(x, 0, 14, 28);
    SliceAppend(x, 0, 28, 42);
    SliceAppend(x, 0, 42, 54);
    SliceAppend(x, 0, 54, 66);
    SliceAppend(x, 0, 66, 72);
    assert x[0..72] == x;
  }

  /**
   * The parameter order of config.h's `LED_LAYOUT` is the reading order of
   * the drawing: the script's `layout_indices`, for the script's `layout`,
   * are `l<Param(0)>` … `l<Param(71)>`.
   */
  lemma LayoutMatchesConfig()
    ensures Indices(Split(Layout, '\n')) == seq(LedCount, p requires 0 <= p < LedCount => "l" + NatText(Param(p)))
  {
    LayoutRows();
    IndicesOfDrawing([Row0, Row1, Row2, Row3, Row4, Row5]);
    RowsFollowParams();
  }

  /** The script's layout names each LED 0..71 exactly once: `l<i>` stands at `Slot(i)`, and no name twice. */
  lemma LayoutIsPermutation()
    ensures var indices := Indices(Split(Layout, '\n'));
      |indices| == LedCount
      && (forall i :: 0 <= i < LedCount ==> indices[Slot(i)] == "l" + NatText(i))
      && (forall p, q :: 0 <= p < |indices| && 0 <= q < |indices| && indices[p] == indices[q] ==> p == q)
  {
    LayoutMatchesConfig();
    ParamBijective();
    var indices := Indices(Split(Layout, '\n'));
    forall p, q | 0 <= p < |indices| && 0 <= q < |indices| && indices[p] == indices[q]
      ensures p == q
    {
      assert NatText(Param(p)) == indices[p][1..];
      assert NatText(Param(q)) == indices[q][1..];
      NatTextInjective(Param(p), Param(q));
      ParamInjective(p, q);
    }
  }

  /** `indices_ordered`: `l0`, `l1`, … up to the number of indices. */
  function IndicesOrdered(n: nat): seq<string> {
    seq(n, i requires 0 <= i < n => "l" + NatText(i))
  }

  /** `indices_ordered` has `n` names, no two alike. */
  lemma IndicesOrderedDistinct(n: nat)
    ensures |IndicesOrdered(n)| == n
    ensures forall i, j :: 0 <= i < n && 0 <= j < n && IndicesOrdered(n)[i] == IndicesOrdered(n)[j] ==> i == j
  {
    forall i, j | 0 <= i < n && 0 <= j < n && IndicesOrdered(n)[i] == IndicesOrdered(n)[j]
      ensures i == j
    {
      assert NatText(i) == IndicesOrdered(n)[i][1..];
      assert NatText(j) == IndicesOrdered(n)[j][1..];
      NatTextInjective(i, j);
    }
  }

  /** `each_color`: `(color)` once per index, joined with commas. */
  function EachColor(n: nat): string {
    if n == 0 then "" else Join(seq(n, _ => "(color)"), ',')
  }

  /** Splitting `each_color` at its commas gives back `n` arguments `(color)`. */
  lemma EachColorArity(n: nat)
    requires n >= 1
    ensures Split(EachColor(n), ',') == seq(n, _ => "(color)")
  {
    SplitJoin(seq(n, _ => "(color)"), ',');
  }

  /**
   * The three pieces the script prints agree in length for its layout:
   * `LED_LAYOUT` gets 72 parameters, its body lists 72 names, and
   * `LED_LAYOUT_ALL` passes 72 arguments.
   */
  lemma GeneratedArity()
    ensures var n := |Indices(Split(Layout, '\n'))|;
      n == LedCount && |IndicesOrdered(n)| == n && |Split(EachColor(n), ',')| == n
  {
    LayoutMatchesConfig();
    EachColorArity(LedCount);
  }
}
