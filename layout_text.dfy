/** Layout text parsing of scripts/gen_keymap.py (`Keymaps._parse`). */
module LayoutText {
  import opened Wrappers
  import opened Text
  import opened KeyCodes
  import opened Layers

  /** The keycodes of one comma-separated line: each non-blank piece, stripped. */
  function ParseTokens(pieces: seq<string>): Result<seq<KeyCode>> {
    if pieces == [] then Ok([])
    else
      var t := Strip(pieces[0]);
      if t == [] then ParseTokens(pieces[1..])
      else
        match MakeKeyCode(Str(t))
        case Err(e) => Err(e)
        case Ok(k) =>
          match ParseTokens(pieces[1..])
          case Err(e) => Err(e)
          case Ok(ks) => Ok([k] + ks)
  }

  /** `filter(None, ...)`: keycodes whose rendering is empty are dropped. */
  function FilterTruthy(ks: seq<KeyCode>): (r: seq<KeyCode>)
    ensures |r| <= |ks|
  {
    if ks == [] then []
    else (if Width(ks[0]) == 0 then [] else [ks[0]]) + FilterTruthy(ks[1..])
  }

  /** The row one line contributes: nothing for a comment or a blank line. */
  function ParseLine(line: string): Result<seq<KeyCode>> {
    var l := LStrip(line);
    if StartsWith(l, "//") then Ok([])
    else
      match ParseTokens(Split(l, ','))
      case Err(e) => Err(e)
      case Ok(ks) => Ok(FilterTruthy(ks))
  }

  /** `Keymaps._parse`, the rows of a layout text, line by line. */
  function ParseLines(lines: seq<string>): Result<Grid> {
    if lines == [] then Ok([])
    else
      match ParseLines(lines[..|lines| - 1])
      case Err(e) => Err(e)
      case Ok(g) =>
        match ParseLine(lines[|lines| - 1])
        case Err(e) => Err(e)
        case Ok(ks) => Ok(if ks == [] then g else g + [ks])
  }

  function ParseLayout(layout: string): Result<Grid> {
    ParseLines(Split(layout, '\n'))
  }

  /** Every row parsed is non-empty and every cell renders as a string. */
  predicate WellParsed(g: Grid) {
    forall r :: 0 <= r < |g| ==> g[r] != [] && forall c :: 0 <= c < |g[r]| ==> Rendered(g[r][c]) && Width(g[r][c]) > 0
  }

  /** A layout token: non-empty, no whitespace, no comma, not a comment. */
  predicate Token(t: string) {
    t != [] && NoSpace(t) && ',' !in t && t[0] != '/'
  }

  /** The keycodes `KeyCode(t)` builds for each token of a row. */
  predicate ParsesTo(row: seq<string>, ks: seq<KeyCode>) {
    |ks| == |row| && forall i :: 0 <= i < |row| ==> MakeKeyCode(Str(row[i])) == Ok(ks[i])
  }

  /** Tokens that each build a keycode. */
  predicate Tokens(row: seq<string>) {
    forall i :: 0 <= i < |row| ==> Token(row[i]) && MakeKeyCode(Str(row[i])).Ok?
  }

  /** The text of a layout: each row's tokens joined by commas, one row per line. */
  function LayoutLines(rows: seq<seq<string>>): (r: seq<string>)
    requires forall i :: 0 <= i < |rows| ==> rows[i] != []
    ensures |r| == |rows| && forall i :: 0 <= i < |rows| ==> r[i] == Join(rows[i], ',')
  {
    if rows == [] then [] else LayoutLines(rows[..|rows| - 1]) + [Join(rows[|rows| - 1], ',')]
  }

  /** `Keymaps.base_keys`: each base-layer keycode with its position, row-major. */
  function BaseKeys(g: Grid): (r: seq<(KeyCode, Coord)>)
    ensures |r| == |Cells(g)|
  {
    if g == [] then []
    else
      BaseKeys(g[..|g| - 1]) + LastRowKeys(g)
  }

  /**
   * `base_keys` yields each cell of the grid once, in row-major order: each
   * keycode with its own position, and no position twice.
   */
  lemma BaseKeysCells(g: Grid)
    ensures var r := BaseKeys(g);
      (forall i :: 0 <= i < |r| ==> InGrid(g, r[i].1) && g[r[i].1.row][r[i].1.col] == r[i].0)
      && (forall i, j :: 0 <= i < j < |r| ==> r[i].1 != r[j].1)
      && (forall i :: 0 <= i < |r| ==> r[i].0 == Cells(g)[i])
  {
    BaseKeysPlaced(g);
    BaseKeysDistinct(g);
  }

  /** The coordinates of the row being added, after those of the rows before it. */
  function LastRowKeys(g: Grid): (r: seq<(KeyCode, Coord)>)
    requires g != []
  {
    var n := |g| - 1;
    seq(|g[n]|, c requires 0 <= c < |g[n]| => (g[n][c], Coord(n, c)))
  }

  lemma {:induction false} BaseKeysPlaced(g: Grid)
    ensures forall i :: 0 <= i < |BaseKeys(g)| ==> Placed(g, BaseKeys(g), i)
  {
    if g != [] {
      var n := |g| - 1;
      var g' := g[..n];
      BaseKeysPlaced(g');
      var front := BaseKeys(g');
      var last := LastRowKeys(g);
      var r := BaseKeys(g);
      assert r == front + last;
      assert Cells(g) == Cells(g') + g[n];
      forall i | 0 <= i < |r| ensures Placed(g, r, i) {
        if i < |front| {
          assert Placed(g', front, i);
          assert r[i] == front[i] && Cells(g)[i] == Cells(g')[i];
          assert g'[front[i].1.row] == g[front[i].1.row];
        } else {
          assert r[i] == last[i - |front|] && Cells(g)[i] == g[n][i - |front|];
        }
      }
    }
  }

  /** Entry i of r is the keycode at its own position, and the i-th cell. */
  predicate Placed(g: Grid, r: seq<(KeyCode, Coord)>, i: nat)
    requires i < |r| && |r| == |Cells(g)|
  {
    InGrid(g, r[i].1) && g[r[i].1.row][r[i].1.col] == r[i].0 && r[i].0 == Cells(g)[i]
  }

  lemma {:induction false} BaseKeysDistinct(g: Grid)
    ensures DistinctCoords(BaseKeys(g))
  {
    if g != [] {
      var n := |g| - 1;
      var g' := g[..n];
      BaseKeysDistinct(g');
      BaseKeysPlaced(g');
      var front := BaseKeys(g');
      var last := LastRowKeys(g);
      forall i | 0 <= i < |front| ensures front[i].1.row < n {
        assert Placed(g', front, i);
      }
      assert forall k :: 0 <= k < |last| ==> last[k].1 == Coord(n, k);
      DistinctAppend(front, last, n);
    }
  }

  /** No coordinate occurs twice. */
  predicate DistinctCoords(r: seq<(KeyCode, Coord)>) {
    forall i, j :: 0 <= i < j < |r| ==> r[i].1 != r[j].1
  }

  lemma DistinctAppend(front: seq<(KeyCode, Coord)>, last: seq<(KeyCode, Coord)>, n: nat)
    requires DistinctCoords(front) && forall i :: 0 <= i < |front| ==> front[i].1.row < n
    requires forall k :: 0 <= k < |last| ==> last[k].1 == Coord(n, k)
    ensures DistinctCoords(front + last)
  {
    var r := front + last;
    forall i, j | 0 <= i < j < |r| ensures r[i].1 != r[j].1 {
      if j < |front| {
        assert r[i] == front[i] && r[j] == front[j];
      } else if i >= |front| {
        assert r[i] == last[i - |front|] && r[j] == last[j - |front|];
      } else {
        assert r[i] == front[i] && r[j] == last[j - |front|];
      }
    }
  }
}
